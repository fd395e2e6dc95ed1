# Expense-evidence submission form: document-requirement rules

This project models the decision logic of a research-expense evidence form
(a single Streamlit script, `app.py`). A researcher picks a payment method
(corporate card, research card or tax invoice) and a project account. They
say whether the purchase totals 1,000,000 won or more, then pick an expense
category and answer that category's questions. Along the way they attach
files to upload slots. The form stops early if no project is chosen, or if a
high-value purchase lacks its audit proof. Otherwise it computes three flags:
`is_high_price_checked`, `basic_files_ok` and `extra_requirements_met`. Their
conjunction, `all_clear`, enables the submit button.

The model has four modules.

- `Choices` (`choices.dfy`) holds the payment methods with their labels and
  Python's substring test `"카드" in label`, written as a recursive function
  proved equal to "occurs at some index". It also holds the project catalog
  per method, with the `선택하세요` sentinel first, and the category list per
  method.
- `Requirements` (`requirements.dfy`) holds the rules as a table.
  - `GateSlots` gives the audit proof for a high-value purchase.
  - `BaseSlots` gives the statement, plus the tax invoice for a non-card method.
  - `CategoryRequirement` gives, per category and sub-answers, the slots to
    upload, whether a non-empty reason is needed, and whether the purchase is
    admissible at all.
  - `Evaluate` gives the form's outcome for given answers and attached files:
    stopped at the project step, stopped at the high-value gate, or a verdict
    with the three flags.
- `SubmissionForm` (`submission_form.dfy`) is the script itself, written
  imperatively.
  - `RunForm` fills the `uploaded_files` dictionary (a `map<Slot, bool>`) as
    each uploader is shown, appends lab operations to the category list, and
    flips the flags through the same if/elif chains as the source.
  - It returns early at the two `st.stop()` points.
  - It is proved to produce exactly `Evaluate`'s outcome. When it reaches a
    verdict, the dictionary's keys are exactly the required slots.
- `Properties` (`properties.dfy`) proves the rules the form promises, over
  `Evaluate`.

Inputs are modelled as values. Each widget always holds a value: checkboxes
and radios have defaults, and text inputs start as `""`. So every answer in
`Answers` is a plain value, with no "unanswered" state. File uploads are a
set of slots that hold a file. A reason counts as given when it is a
non-empty string, as Python's truthiness test has it, so a reason of only
spaces counts.

Three points of the rules as coded:

- For lab-environment costs paid by card, the code always requires the order
  capture and a reason (`app.py:124-130`). It asks no purchase-channel
  question and offers no itemised-receipt alternative.
- The code has no manual project-text entry and no alphanumeric pattern
  check. It has no list of missing-reason codes either: only the three flags
  and the two halting points.
- The lab-operations ceiling is a checkbox asking whether the total is
  *under* 100,000 won.

## Model

| member | source | states |
|---|---|---|
| Choices.Contains | app.py:94 | Python's `t in s` on strings: the result holds exactly when `t` occurs in `s` at some index |
| Choices.ProjectOptions | app.py:28-35 | the project selectbox lists the sentinel first, followed by the method's fixed catalog, in which the sentinel never appears |
| Choices.CategoriesFor | app.py:77-85 | the six categories are always offered, in order; lab operations is offered, last, exactly when the method is not the tax invoice; no category is offered twice |
| Choices.CardInLabel | app.py:22-25 | `"카드"` occurs in the labels `법인카드` and `연구비카드` and does not occur in `세금계산서` |
| Choices.IsCard | app.py:94 | the card test `"카드" in payment_method` (also at line 213) holds exactly for the two card methods, not for the tax invoice |
| Requirements.BaseSlots | app.py:93-100 | the base uploaders: the statement always, and the tax invoice exactly for the tax invoice method, nothing else |
| Requirements.CategoryRequirement | app.py:114-205 | the category rule table: only lab operations without the under-100,000-won confirmation is inadmissible; only lab environment and office equipment ask for a reason; no category asks for the audit proof, tax invoice or statement; an offered category never asks the tax invoice method for an order capture |
| Requirements.Evaluate | app.py:35-221 | the form stops exactly when the sentinel project is selected or a high-value purchase lacks its audit proof; whenever it computes its flags, `is_high_price_checked` holds |
| Properties.CatalogProjectPassesStepOne | app.py:28-39 | every project of the method's catalog, once selected, gets past the project step |
| SubmissionForm.RunForm | app.py:19-221 | the script's outcome equals `Evaluate`; the category list is the method's list once step 3 is reached; the upload dictionary is empty after the project stop, holds only the audit proof after the gate stop, and otherwise has exactly the required slots as keys, each recording whether its file is attached |
| SubmissionForm.ShowUploader | app.py:97-100 | one `uploaded_files[key] = st.file_uploader(...)` line: the slot joins the dictionary's keys, every entry still records whether its file is attached, and `uploaded_files.get(key)` is truthy exactly when a file is attached |
| SubmissionForm.ShowCategory | app.py:104-205 | the if/elif chain over categories shows exactly the slots of the category's rule, and sets `extra_requirements_met` exactly when that rule is satisfied |
| SubmissionForm.CheckBaseFiles | app.py:211-218 | `basic_files_ok` holds exactly when every base slot of the method is shown and holds a file |
| Properties.SentinelHalts | app.py:35-39 | the form stops at the project step exactly when the sentinel is selected, and then submission is impossible |
| Properties.GateDominance | app.py:55-74 | with a project chosen, the form stops at the gate exactly when the purchase is high-value and the audit proof is missing, whatever else is answered or attached |
| Properties.ReachedMeansGatePassed | app.py:55-74 | whenever the flags are computed, a project is chosen, `is_high_price_checked` holds and a high-value purchase has its audit proof |
| Properties.BasicFilesRule | app.py:212-218 | `basic_files_ok` holds exactly when the statement is attached (card methods), or both the tax invoice and the statement are (tax invoice method) |
| Properties.SubmitEnabledIff | app.py:221 | `all_clear` holds exactly when a project is chosen, every required slot (gate, base, category) holds a file, and the category's admissibility and reason conditions hold |
| Properties.MoreFilesNeverHurt | app.py:104-221 | attaching further files never makes the form stop earlier, never clears `basic_files_ok` or `extra_requirements_met`, and never turns `all_clear` from true to false |
| Properties.OnlyRequiredSlotsMatter | app.py:54-205 | the outcome depends only on the files in the slots the form asks for |
| Properties.MaterialsRule | app.py:114-116 | materials need nothing beyond the base documents |
| Properties.LabEnvironmentRule | app.py:118-130 | lab environment needs a non-empty reason under the tax invoice method, and the order capture plus a non-empty reason under a card method |
| Properties.OfficeEquipmentRule | app.py:132-148 | under the tax invoice method no order-capture uploader is shown; the rule holds exactly when the reason is non-empty and either the purchase is not online or the order capture is attached |
| Properties.ConferenceFeeRule | app.py:150-158 | conference fees need the registration certificate, the date/venue capture and the fee schedule, all three |
| Properties.PrintingCostRule | app.py:160-168 | printing needs the poster file for a poster and the book cover otherwise |
| Properties.PublicationFeeRule | app.py:170-178 | publication fees need the paper cover for a publication or proofreading charge and the figure file otherwise |
| Properties.LabOperationsRule | app.py:180-205 | without the under-100,000-won confirmation the submission can never be sent, whatever files are attached; with it, the rule needs the order capture for an internet order and the itemised receipt otherwise |

## Left out

- Page set-up, titles, dividers, columns, and the info, success, warning and
  error messages are left out. So are the balloons and the submit click
  (`app.py:1-12`, `app.py:223-236`). They are rendering only; the model
  exposes the `all_clear` they depend on.
- File contents and each uploader's accepted extensions are left out. The
  upload widget enforces those; the model sees one presence flag per slot.
- The widgets' default values are left out: the online checkbox starts
  ticked, the under-100,000 checkbox unticked, and each radio on its first
  option. They are starting values of inputs that the model takes as
  arbitrary.
- Project and category are free inputs of the model. In the program they
  come from selectboxes: the project is one of `ProjectOptions`, and the
  category is one of `CategoriesFor`, so lab operations never comes with the
  tax invoice method. The model does not restrict them, because none of its
  contracts depends on that restriction.
- Email, cloud-storage and spreadsheet delivery, manual project-text entry,
  and session reset are left out. The modelled script contains none of them.
- Streamlit's rerun-per-interaction model is left out. `RunForm` is one run
  over the current answers.
