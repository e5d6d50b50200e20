/** The negotiation stages of a procurement conversation and the record that
    configures one agent session (src/types/conversation.types.ts). */
module ConversationTypes {
  import opened Wrappers

  /** The seven members of the `ConversationStatus` string enum, in declaration order. */
  datatype ConversationStatus =
    | InitialResearch
    | SpecificationConfirmation
    | QuotationRequestSubmitted
    | NegotiationTurn
    | AwaitingCounterpartyResponse
    | FinalAgreementReady
    | ConversationClosedFailure

  /** The string value of each enum member, which is identical to its name. No
      value is empty or contains a full stop; the confirmation message of the
      status tool relies on this to keep the status and the note apart. */
  function Name(s: ConversationStatus): (r: string)
    ensures |r| > 0 && '.' !in r
  {
    match s
    case InitialResearch => "INITIAL_RESEARCH"
    case SpecificationConfirmation => "SPECIFICATION_CONFIRMATION"
    case QuotationRequestSubmitted => "QUOTATION_REQUEST_SUBMITTED"
    case NegotiationTurn => "NEGOTIATION_TURN"
    case AwaitingCounterpartyResponse => "AWAITING_COUNTERPARTY_RESPONSE"
    case FinalAgreementReady => "FINAL_AGREEMENT_READY"
    case ConversationClosedFailure => "CONVERSATION_CLOSED_FAILURE"
  }

  /** Every status, in the order the enum declares them. */
  const AllStatuses: seq<ConversationStatus> := [
    InitialResearch, SpecificationConfirmation, QuotationRequestSubmitted, NegotiationTurn,
    AwaitingCounterpartyResponse, FinalAgreementReady, ConversationClosedFailure
  ]

  /** Distinct statuses have distinct string values: already the first letter
      and the length of the value tell the seven apart. */
  lemma NameInjective(s: ConversationStatus, t: ConversationStatus)
    ensures Name(s) == Name(t) ==> s == t
  {
    if Name(s) == Name(t) {
      assert Name(s)[0] == Name(t)[0] && |Name(s)| == |Name(t)|;
    }
  }

  /** There are exactly seven statuses: the list is complete and has no repeats. */
  lemma ExactlySevenStatuses()
    ensures |AllStatuses| == 7
    ensures forall s :: s in AllStatuses
    ensures forall i, j :: 0 <= i < j < |AllStatuses| ==> AllStatuses[i] != AllStatuses[j]
  {
    forall s: ConversationStatus ensures s in AllStatuses {
      var i := match s
        case InitialResearch => 0
        case SpecificationConfirmation => 1
        case QuotationRequestSubmitted => 2
        case NegotiationTurn => 3
        case AwaitingCounterpartyResponse => 4
        case FinalAgreementReady => 5
        case ConversationClosedFailure => 6;
      assert AllStatuses[i] == s;
    }
  }

  /** The first status among `candidates` whose value is `str`. */
  function ParseFrom(candidates: seq<ConversationStatus>, str: string): (r: Option<ConversationStatus>)
    ensures r.Some? ==> Name(r.value) == str && r.value in candidates
    ensures r.None? <==> forall i :: 0 <= i < |candidates| ==> Name(candidates[i]) != str
  {
    if candidates == [] then None
    else if Name(candidates[0]) == str then Some(candidates[0])
    else ParseFrom(candidates[1..], str)
  }

  /** The enum gate (`z.enum(ConversationStatus)`): a string is accepted exactly
      when it is the value of some member, and then names that member. */
  function Parse(str: string): (r: Option<ConversationStatus>)
    ensures r.Some? ==> Name(r.value) == str
    ensures r.None? <==> forall s :: Name(s) != str
  {
    ExactlySevenStatuses();
    var r := ParseFrom(AllStatuses, str);
    assert r.None? ==> forall s :: Name(s) != str by {
      if r.None? {
        forall s ensures Name(s) != str {
          assert s in AllStatuses;
        }
      }
    }
    r
  }

  /** Printing a status and parsing it back gives the status again. */
  lemma ParseName(s: ConversationStatus)
    ensures Parse(Name(s)) == Some(s)
  {
    NameInjective(Parse(Name(s)).value, s);
  }

  /** `TestSchema`: the three ids that scope a session, its current status and an
      optional note. The status is always one of the seven members by its type. */
  datatype TestSchema = TestSchema(
    supplierId: string,
    productId: string,
    companyId: string,
    note: Option<string>,
    conversationStatus: ConversationStatus)
}
