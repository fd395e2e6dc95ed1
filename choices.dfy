/**
 Step 1 of the expense-evidence form and the expense-category list: the
 payment methods, the project catalog each method offers, the card test the
 form applies to the method's label, and the categories each method offers.
 */
module Choices {

  /** The three payment methods of the first radio button. */
  datatype PaymentMethod = CorporateCard | ResearchCard | TaxInvoice

  /** The label the radio button shows and returns for each method. */
  function Label(pm: PaymentMethod): string
  {
    match pm
    case CorporateCard => "법인카드"
    case ResearchCard => "연구비카드"
    case TaxInvoice => "세금계산서"
  }

  /** `t` occurs in `s` starting at index `i`. */
  ghost predicate OccursAt(s: string, t: string, i: int)
  {
    0 <= i && i + |t| <= |s| && s[i..i + |t|] == t
  }

  /** Python's substring test `t in s`. */
  function Contains(s: string, t: string): (r: bool)
    ensures r <==> exists i :: OccursAt(s, t, i)
    decreases |s|
  {
    if |t| <= |s| && s[..|t|] == t then
      assert OccursAt(s, t, 0);
      true
    else if |s| <= |t| then
      false
    else
      var rest := Contains(s[1..], t);
      assert !OccursAt(s, t, 0);
      assert rest <==> exists i :: OccursAt(s, t, i) by {
        if rest {
          var j :| OccursAt(s[1..], t, j);
          OccursShift(s, t, j + 1);
        }
        forall i | OccursAt(s, t, i) ensures rest {
          OccursShift(s, t, i);
        }
      }
      rest
  }

  /** An occurrence past the first character is an occurrence in the tail. */
  lemma OccursShift(s: string, t: string, i: int)
    requires 0 < i && 0 < |s|
    ensures OccursAt(s, t, i) <==> OccursAt(s[1..], t, i - 1)
  {
    if i + |t| <= |s| {
      assert s[i..i + |t|] == s[1..][i - 1..i - 1 + |t|];
    }
  }

  /**
   The form's card test: the label contains "카드", which is the case for both
   card methods and not for the tax invoice.
   */
  function IsCard(pm: PaymentMethod): (r: bool)
    ensures r <==> pm != TaxInvoice
  {
    CardInLabel(pm);
    Contains(Label(pm), "카드")
  }

  /** "카드" occurs in the labels of the two card methods and not in "세금계산서". */
  lemma CardInLabel(pm: PaymentMethod)
    ensures Contains(Label(pm), "카드") <==> pm != TaxInvoice
  {
    var s := Label(pm);
    match pm
    case CorporateCard =>
      assert OccursAt(s, "카드", 2);
    case ResearchCard =>
      assert OccursAt(s, "카드", 3);
    case TaxInvoice =>
      forall i | 0 <= i && i + 2 <= |s| ensures !OccursAt(s, "카드", i) {
        assert s[i..i + 2][0] == s[i];
      }
  }

  /** The first entry of the project selectbox, which keeps later steps closed. */
  const Sentinel: string := "선택하세요"

  /** The project accounts each payment method may be charged to. */
  function ProjectsFor(pm: PaymentMethod): seq<string>
  {
    match pm
    case CorporateCard => ["법인공용-운영비", "법인공용-LINC사업"]
    case ResearchCard => ["연구재단-A과제", "산업부-B과제 (Microenvironment)", "환경부-C과제 (CO2)"]
    case TaxInvoice => ["모든 과제 선택 가능", "연구재단-A과제", "산업부-B과제", "환경부-C과제"]
  }

  /**
   The options of the project selectbox: the sentinel first (so it is what the
   box shows until the user picks), then the method's catalog, in which the
   sentinel never appears.
   */
  function ProjectOptions(pm: PaymentMethod): (r: seq<string>)
    ensures |r| == 1 + |ProjectsFor(pm)| && |r| >= 3
    ensures r[0] == Sentinel
    ensures r[1..] == ProjectsFor(pm)
    ensures forall k :: 1 <= k < |r| ==> r[k] != Sentinel
  {
    [Sentinel] + ProjectsFor(pm)
  }

  /** The expense categories of step 3. */
  datatype Category =
    | Materials        // 재료비
    | LabEnvironment   // 연구실 환경 유지비
    | OfficeEquipment  // 사무기기 및 SW
    | ConferenceFee    // 학회/세미나 등록비
    | PrintingCost     // 인쇄비 (포스터/책)
    | PublicationFee   // 논문 게재료
    | LabOperations    // 연구실 운영비 (식대/다과)

  /**
   The category selectbox's options: six categories always, and lab operations
   (meals and refreshments) last, only for a method other than a tax invoice.
   */
  function CategoriesFor(pm: PaymentMethod): (r: seq<Category>)
    ensures forall c :: c in r <==> (c != LabOperations || pm != TaxInvoice)
    ensures |r| == if pm == TaxInvoice then 6 else 7
    ensures r[..6] == [Materials, LabEnvironment, OfficeEquipment, ConferenceFee, PrintingCost, PublicationFee]
    ensures forall i, j :: 0 <= i < j < |r| ==> r[i] != r[j]
  {
    var always := [Materials, LabEnvironment, OfficeEquipment, ConferenceFee, PrintingCost, PublicationFee];
    AlwaysOffered(always);
    if pm != TaxInvoice then always + [LabOperations] else always
  }

  /** Every category but lab operations is among the six always offered. */
  lemma AlwaysOffered(always: seq<Category>)
    requires always == [Materials, LabEnvironment, OfficeEquipment, ConferenceFee, PrintingCost, PublicationFee]
    ensures forall c :: c in always <==> c != LabOperations
  {
    forall c: Category | c != LabOperations ensures c in always {
      match c
      case Materials => assert always[0] == c;
      case LabEnvironment => assert always[1] == c;
      case OfficeEquipment => assert always[2] == c;
      case ConferenceFee => assert always[3] == c;
      case PrintingCost => assert always[4] == c;
      case PublicationFee => assert always[5] == c;
    }
  }
}
