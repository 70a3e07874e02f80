/** The background-check fee card: the modal that updates the one background-check fee, its
    validation, the payload it sends and its reset on closing. */
module BackgroundCheckFee {
  import opened Wrappers
  import opened JsNumbers
  import opened Http
  import VerifyApi

  /** The stored fee, when there is one. */
  datatype FeeRecord = FeeRecord(id: string, fee: real)

  const FeeMessage := "Please enter a valid fee"

  /** The validation: the message is set exactly when the field is empty or reads as a
      negative number. */
  function FeeError(fee: string, parse: ParseFloat): (error: string)
    ensures error != "" <==> InvalidFee(fee, parse)
    ensures error in {"", FeeMessage}
  {
    if InvalidFee(fee, parse) then FeeMessage else ""
  }

  /** The request a valid form sends: the fee as a parsed number and nothing else. Even when a
      fee is stored its id is not sent; the endpoint keeps a single fee. */
  function SaveRequest(fee: string, parse: ParseFloat): (r: Request)
    ensures r == VerifyApi.UpdateFeeRequest([("fee", JNumber(parse(fee)))])
    ensures r.body == JsonBody([("fee", JNumber(parse(fee)))])
    ensures r.url == VerifyApi.GetFeeRequest().url
  {
    VerifyApi.UpdateFeeRequest([("fee", JNumber(parse(fee)))])
  }

  /** `error?.data?.message || 'Failed to update background check fee'`. */
  function FailureMessage(message: Option<string>): (r: string)
    ensures r != ""
    ensures message.Some? && message.value != "" ==> r == message.value
    ensures message.None? || message.value == "" ==> r == "Failed to update background check fee"
  {
    if message.Some? && message.value != "" then message.value else "Failed to update background check fee"
  }

  /** How the save call ended. */
  datatype Reply = Saved | Failed(message: Option<string>)

  class BackgroundCheckFeeCard {
    var isModalOpen: bool
    var fee: string
    var feeError: string
    /** The requests sent to the fee endpoint so far. */
    var sent: seq<Request>

    /** While the modal is closed the form is blank. */
    predicate Valid()
      reads this
    {
      !isModalOpen ==> fee == "" && feeError == ""
    }

    constructor ()
      ensures !isModalOpen && sent == []
      ensures Valid()
    {
      isModalOpen := false;
      fee := "";
      feeError := "";
      sent := [];
    }

    /** `setIsModalOpen(open)` with the effect that follows it: closing the modal blanks the
      field and its message. */
    method SetModalOpen(open: bool)
      modifies this
      ensures isModalOpen == open && sent == old(sent)
      ensures !open ==> fee == "" && feeError == ""
      ensures open ==> fee == old(fee) && feeError == old(feeError)
      ensures Valid()
    {
      isModalOpen := open;
      if !open {
        fee := "";
        feeError := "";
      }
    }

    /** The edit button: the field shows the stored fee, or is blank when there is none, and the
      modal opens. */
    method HandleOpenModal(existing: Option<FeeRecord>, numberText: NumberToString)
      requires Valid()
      modifies this
      ensures isModalOpen && sent == old(sent) && feeError == old(feeError)
      ensures existing.Some? ==> fee == numberText(existing.value.fee)
      ensures existing.None? ==> fee == ""
      ensures Valid()
    {
      if existing.Some? {
        fee := numberText(existing.value.fee);
      } else {
        fee := "";
      }
      isModalOpen := true;
    }

    /** An edit: the field takes the value and its message is cleared. */
    method HandleInputChange(value: string)
      requires isModalOpen
      modifies this
      ensures fee == value && feeError == ""
      ensures isModalOpen && sent == old(sent)
      ensures Valid()
    {
      fee := value;
      if feeError != "" {
        feeError := "";
      }
    }

    /** `validateForm`: sets the message and tells whether the form may be sent. */
    method ValidateForm(parse: ParseFloat) returns (isValid: bool)
      modifies this
      ensures feeError == FeeError(fee, parse)
      ensures isValid <==> !InvalidFee(fee, parse)
      ensures isModalOpen == old(isModalOpen) && fee == old(fee) && sent == old(sent)
    {
      var error := "";
      isValid := true;
      if fee == "" || LessThanZero(parse(fee)) {
        error := FeeMessage;
        isValid := false;
      }
      feeError := error;
    }

    /** The submit: an invalid form shows its message and sends nothing; a valid one sends the
      fee, and on success the modal closes and the form is blanked. A failure returns its
      message and keeps the modal as it is. */
    method HandleSubmit(parse: ParseFloat, reply: Reply) returns (error: Option<string>)
      requires isModalOpen
      modifies this
      ensures old(InvalidFee(fee, parse)) ==>
        sent == old(sent) && isModalOpen && error.None? && fee == old(fee) && feeError == FeeMessage
      ensures !old(InvalidFee(fee, parse)) ==> sent == old(sent) + [SaveRequest(old(fee), parse)]
      ensures !old(InvalidFee(fee, parse)) && reply.Saved? ==>
        !isModalOpen && fee == "" && feeError == "" && error.None?
      ensures !old(InvalidFee(fee, parse)) && reply.Failed? ==>
        isModalOpen && error == Some(FailureMessage(reply.message)) && fee == old(fee) && feeError == ""
      ensures Valid()
    {
      error := None;
      var isValid := ValidateForm(parse);
      if !isValid {
        return;
      }
      sent := sent + [SaveRequest(fee, parse)];
      match reply
      case Saved =>
        SetModalOpen(false);
      case Failed(message) =>
        error := Some(FailureMessage(message));
    }
  }
}
