/** `OrderProcessStage` (apps/rent/services/order_pipeline/stages.py). */
module Stages {
  import opened Wrappers
  import Text

  /** The stages of order processing, in processing order. */
  datatype OrderProcessStage = CheckingExistsDocuments | VerifyDocuments | ConfirmOrder {
    function Name(): string
    {
      match this
      case CheckingExistsDocuments => "CHECKING_EXISTS_DOCUMENTS"
      case VerifyDocuments => "VERIFY_DOCUMENTS"
      case ConfirmOrder => "CONFIRM_ORDER"
    }

    /** `auto()` gives the lower-cased name. */
    function Value(): string { Text.Lower(Name()) }
  }

  /** Declaration order, which is also the order the builder chains the stages in. */
  const ALL_STAGES: seq<OrderProcessStage> := [CheckingExistsDocuments, VerifyDocuments, ConfirmOrder]

  lemma StageValues()
    ensures CheckingExistsDocuments.Value() == "checking_exists_documents"
    ensures VerifyDocuments.Value() == "verify_documents"
    ensures ConfirmOrder.Value() == "confirm_order"
  {
    Text.LowerIs("CHECKING_EXISTS_DOCUMENTS", "checking_exists_documents");
    Text.LowerIs("VERIFY_DOCUMENTS", "verify_documents");
    Text.LowerIs("CONFIRM_ORDER", "confirm_order");
  }

  /** Position of a stage in declaration order. */
  function StageIndex(s: OrderProcessStage): (i: nat)
    ensures i < |ALL_STAGES| && ALL_STAGES[i] == s
  {
    match s
    case CheckingExistsDocuments => 0
    case VerifyDocuments => 1
    case ConfirmOrder => 2
  }

  /**
   * The stage a string names. A stage travels through the Celery queue as its
   * string value, and a str-valued enum member compares equal to its value.
   */
  function StageFromValue(v: string): (r: Option<OrderProcessStage>)
    ensures r.Some? ==> r.value.Value() == v
    ensures r.None? ==> forall s: OrderProcessStage :: s.Value() != v
  {
    StageValues();
    if v == CheckingExistsDocuments.Value() then Some(CheckingExistsDocuments)
    else if v == VerifyDocuments.Value() then Some(VerifyDocuments)
    else if v == ConfirmOrder.Value() then Some(ConfirmOrder)
    else None
  }

  lemma StageValueRoundTrip(s: OrderProcessStage)
    ensures StageFromValue(s.Value()) == Some(s)
  {
    StageValues();
  }
}
