/**
 The form script itself, run once per interaction: it fills the dictionary of
 upload slots as it shows each uploader, flips its three flags through the
 step-by-step checks and halts early at the two stopping points.
 */
module SubmissionForm {
  import opened Choices
  import opened Requirements

  /** `uploaded.get(s)` is truthy: the slot was shown and holds a file. */
  predicate Has(uploaded: map<Slot, bool>, s: Slot)
  {
    s in uploaded && uploaded[s]
  }

  /**
   One run of the form over the answers and the files attached so far.
   `offered` is the category list the selectbox shows and `uploaded` the
   dictionary of shown upload slots, each mapped to whether it holds a file.
   */
  method RunForm(a: Answers, attached: set<Slot>)
    returns (outcome: Outcome, offered: seq<Category>, uploaded: map<Slot, bool>)
    ensures outcome == Evaluate(a, attached)
    ensures offered == if outcome.Reached? then CategoriesFor(a.payment) else []
    ensures uploaded.Keys == match outcome
      case Stopped(ProjectNotChosen) => {}
      case Stopped(HighValueProofMissing) => {AuditProof}
      case Reached(_) => RequiredSlots(a)
    ensures Records(uploaded, attached)
  {
    offered, uploaded := [], map[];

    // Step 1: the sentinel project halts the form.
    if a.project == Sentinel {
      outcome := Stopped(ProjectNotChosen);
      return;
    }

    // Step 2: high-value gate.
    var isHighPriceChecked := true;
    if a.highValue {
      uploaded := ShowUploader(uploaded, AuditProof, attached);
      if !Has(uploaded, AuditProof) {
        isHighPriceChecked := false;
      }
    }
    if !isHighPriceChecked {
      outcome := Stopped(HighValueProofMissing);
      return;
    }

    // Step 3: the category list and the base uploaders.
    offered := [Materials, LabEnvironment, OfficeEquipment, ConferenceFee, PrintingCost, PublicationFee];
    if a.payment != TaxInvoice {
      offered := offered + [LabOperations];
    }
    if !IsCard(a.payment) {
      uploaded := ShowUploader(uploaded, TaxInvoiceFile, attached);
    }
    uploaded := ShowUploader(uploaded, Statement, attached);
    assert offered == CategoriesFor(a.payment);
    assert uploaded.Keys == GateSlots(a.highValue) + BaseSlots(a.payment);

    var extraRequirementsMet;
    extraRequirementsMet, uploaded := ShowCategory(a, attached, uploaded);
    var basicFilesOk := CheckBaseFiles(a.payment, uploaded);
    assert basicFilesOk == (BaseSlots(a.payment) <= attached);
    outcome := Reached(Verdict(isHighPriceChecked, basicFilesOk, extraRequirementsMet));
  }

  /**
   `uploaded_files[s] = st.file_uploader(...)`: the slot is shown and records
   whether a file is attached to it.
   */
  method ShowUploader(uploaded0: map<Slot, bool>, s: Slot, attached: set<Slot>)
    returns (uploaded: map<Slot, bool>)
    requires Records(uploaded0, attached)
    ensures uploaded.Keys == uploaded0.Keys + {s}
    ensures Records(uploaded, attached)
    ensures Has(uploaded, s) <==> s in attached
  {
    uploaded := uploaded0[s := s in attached];
  }

  /** Every shown slot records whether its file is attached. */
  predicate Records(uploaded: map<Slot, bool>, attached: set<Slot>)
  {
    forall s :: s in uploaded ==> uploaded[s] == (s in attached)
  }

  /**
   The category's uploaders and its extra-requirements flag: the slots the
   category shows are those its rule requires, and the flag is set exactly when
   that rule is satisfied.
   */
  method ShowCategory(a: Answers, attached: set<Slot>, uploaded0: map<Slot, bool>)
    returns (extraRequirementsMet: bool, uploaded: map<Slot, bool>)
    requires Records(uploaded0, attached)
    ensures extraRequirementsMet == CategorySatisfied(CategoryRequirement(a), attached, a.reason)
    ensures uploaded.Keys == uploaded0.Keys + CategoryRequirement(a).slots
    ensures Records(uploaded, attached)
  {
    uploaded := uploaded0;
    extraRequirementsMet := false;
    match a.category
    case Materials =>
      extraRequirementsMet := true;
    case LabEnvironment =>
      if a.payment == TaxInvoice {
        if |a.reason| > 0 {
          extraRequirementsMet := true;
        }
      } else {
        uploaded := ShowUploader(uploaded, OrderCapture, attached);
        if Has(uploaded, OrderCapture) && |a.reason| > 0 {
          extraRequirementsMet := true;
        }
      }
    case OfficeEquipment =>
      var isOnline := false;
      if a.payment != TaxInvoice {
        isOnline := a.online;
      }
      if isOnline {
        uploaded := ShowUploader(uploaded, OrderCapture, attached);
      }
      if |a.reason| > 0 {
        if isOnline && !Has(uploaded, OrderCapture) {
          extraRequirementsMet := false;
        } else {
          extraRequirementsMet := true;
        }
      }
    case ConferenceFee =>
      uploaded := ShowUploader(uploaded, ConfReg, attached);
      uploaded := ShowUploader(uploaded, ConfInfo, attached);
      uploaded := ShowUploader(uploaded, ConfFee, attached);
      if Has(uploaded, ConfReg) && Has(uploaded, ConfInfo) && Has(uploaded, ConfFee) {
        extraRequirementsMet := true;
      }
    case PrintingCost =>
      if a.printType == Poster {
        uploaded := ShowUploader(uploaded, PosterFile, attached);
        if Has(uploaded, PosterFile) {
          extraRequirementsMet := true;
        }
      } else {
        uploaded := ShowUploader(uploaded, BookCover, attached);
        if Has(uploaded, BookCover) {
          extraRequirementsMet := true;
        }
      }
    case PublicationFee =>
      if a.paperType == PublicationCharge {
        uploaded := ShowUploader(uploaded, PaperCover, attached);
        if Has(uploaded, PaperCover) {
          extraRequirementsMet := true;
        }
      } else {
        uploaded := ShowUploader(uploaded, FigureFile, attached);
        if Has(uploaded, FigureFile) {
          extraRequirementsMet := true;
        }
      }
    case LabOperations =>
      if !a.under100k {
        extraRequirementsMet := false;
      } else if a.route == InternetOrder {
        uploaded := ShowUploader(uploaded, OrderCapture, attached);
        if Has(uploaded, OrderCapture) {
          extraRequirementsMet := true;
        }
      } else {
        uploaded := ShowUploader(uploaded, DetailReceipt, attached);
        if Has(uploaded, DetailReceipt) {
          extraRequirementsMet := true;
        }
      }
  }

  /**
   The base-document flag: for a card method the statement must be attached,
   otherwise the tax invoice and the statement.
   */
  method CheckBaseFiles(pm: PaymentMethod, uploaded: map<Slot, bool>) returns (basicFilesOk: bool)
    ensures basicFilesOk <==> forall s :: s in BaseSlots(pm) ==> Has(uploaded, s)
  {
    basicFilesOk := false;
    if IsCard(pm) {
      if Has(uploaded, Statement) {
        basicFilesOk := true;
      }
    } else if Has(uploaded, TaxInvoiceFile) && Has(uploaded, Statement) {
      basicFilesOk := true;
    }
  }
}
