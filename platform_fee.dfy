/** The platform-fee page: the modal that creates or updates the two platform fees (today's and
    the future one), its validation, the payload it sends and its reset on closing. */
module PlatformFee {
  import opened Wrappers
  import opened JsNumbers
  import opened Http

  /** The stored platform fee, when there is one. */
  datatype FeeRecord = FeeRecord(id: string, feeToday: real, feeFuture: real)

  /** The two inputs of the form. */
  datatype FeeField = FeeToday | FeeFuture

  const TodayMessage := "Please enter a valid fee for today"
  const FutureMessage := "Please enter a valid fee for future"

  /** The validation: each field is checked on its own, so both messages can be set at once.
      A field gets its message exactly when it is empty or reads as a negative number; the other
      gets "". */
  function FeeErrors(feeToday: string, feeFuture: string, parse: ParseFloat): (errors: (string, string))
    ensures errors.0 != "" <==> InvalidFee(feeToday, parse)
    ensures errors.1 != "" <==> InvalidFee(feeFuture, parse)
    ensures errors.0 in {"", TodayMessage} && errors.1 in {"", FutureMessage}
  {
    (if InvalidFee(feeToday, parse) then TodayMessage else "",
     if InvalidFee(feeFuture, parse) then FutureMessage else "")
  }

  /** The form is valid exactly when neither field has a message. */
  lemma ValidIffNoMessage(feeToday: string, feeFuture: string, parse: ParseFloat)
    ensures FeeErrors(feeToday, feeFuture, parse) == ("", "") <==>
      !InvalidFee(feeToday, parse) && !InvalidFee(feeFuture, parse)
  {
  }

  /** The payload: the two fees as parsed numbers, then the stored fee's id exactly when a fee
      exists, which makes the call an update rather than a creation. */
  function Payload(feeToday: string, feeFuture: string, existing: Option<FeeRecord>, parse: ParseFloat): (fields: seq<(string, JsonValue)>)
    ensures |fields| == if existing.Some? then 3 else 2
    ensures fields[0] == ("feeToday", JNumber(parse(feeToday)))
    ensures fields[1] == ("feeFuture", JNumber(parse(feeFuture)))
    ensures existing.Some? ==> fields[2] == ("id", JString(existing.value.id))
  {
    [("feeToday", JNumber(parse(feeToday))), ("feeFuture", JNumber(parse(feeFuture)))]
    + if existing.Some? then [("id", JString(existing.value.id))] else []
  }

  /** The toast after a failed save: the server's message, or a fixed text naming the action. */
  function FailureMessage(message: Option<string>, existing: Option<FeeRecord>): (r: string)
    ensures r != ""
    ensures message.Some? && message.value != "" ==> r == message.value
    ensures message.None? || message.value == "" ==>
      r == (if existing.Some? then "Failed to update platform fee" else "Failed to create platform fee")
  {
    if message.Some? && message.value != "" then message.value
    else if existing.Some? then "Failed to update platform fee"
    else "Failed to create platform fee"
  }

  /** How the save call ended. */
  datatype Reply = Saved | Failed(message: Option<string>)

  class PlatformFeePage {
    var isModalOpen: bool
    var feeToday: string
    var feeFuture: string
    var feeTodayError: string
    var feeFutureError: string
    /** The payloads sent to the save endpoint so far. */
    var sent: seq<seq<(string, JsonValue)>>

    /** While the modal is closed the form is blank. */
    predicate Valid()
      reads this
    {
      !isModalOpen ==> feeToday == "" && feeFuture == "" && feeTodayError == "" && feeFutureError == ""
    }

    constructor ()
      ensures !isModalOpen && sent == []
      ensures Valid()
    {
      isModalOpen := false;
      feeToday := "";
      feeFuture := "";
      feeTodayError := "";
      feeFutureError := "";
      sent := [];
    }

    /** `setIsModalOpen(open)` with the effect that follows it: closing the modal blanks both
      fields and both messages. */
    method SetModalOpen(open: bool)
      modifies this
      ensures isModalOpen == open && sent == old(sent)
      ensures !open ==> feeToday == "" && feeFuture == "" && feeTodayError == "" && feeFutureError == ""
      ensures open ==>
        feeToday == old(feeToday) && feeFuture == old(feeFuture)
        && feeTodayError == old(feeTodayError) && feeFutureError == old(feeFutureError)
      ensures Valid()
    {
      isModalOpen := open;
      if !open {
        feeToday := "";
        feeFuture := "";
        feeTodayError := "";
        feeFutureError := "";
      }
    }

    /** The edit button: the fields show the stored fees, or are blank when there is none, and
      the modal opens. */
    method HandleOpenModal(existing: Option<FeeRecord>, numberText: NumberToString)
      requires Valid()
      modifies this
      ensures isModalOpen && sent == old(sent)
      ensures existing.Some? ==> feeToday == numberText(existing.value.feeToday) && feeFuture == numberText(existing.value.feeFuture)
      ensures existing.None? ==> feeToday == "" && feeFuture == ""
      ensures feeTodayError == old(feeTodayError) && feeFutureError == old(feeFutureError)
      ensures Valid()
    {
      if existing.Some? {
        feeToday := numberText(existing.value.feeToday);
        feeFuture := numberText(existing.value.feeFuture);
      } else {
        feeToday := "";
        feeFuture := "";
      }
      isModalOpen := true;
    }

    /** An edit: only that field changes, and only that field's message is cleared. */
    method HandleInputChange(field: FeeField, value: string)
      requires isModalOpen
      modifies this
      ensures field == FeeToday ==> feeToday == value && feeTodayError == "" && feeFuture == old(feeFuture) && feeFutureError == old(feeFutureError)
      ensures field == FeeFuture ==> feeFuture == value && feeFutureError == "" && feeToday == old(feeToday) && feeTodayError == old(feeTodayError)
      ensures isModalOpen && sent == old(sent)
      ensures Valid()
    {
      match field
      case FeeToday =>
        feeToday := value;
        if feeTodayError != "" {
          feeTodayError := "";
        }
      case FeeFuture =>
        feeFuture := value;
        if feeFutureError != "" {
          feeFutureError := "";
        }
    }

    /** `validateForm`: sets both messages and tells whether the form may be sent. */
    method ValidateForm(parse: ParseFloat) returns (isValid: bool)
      modifies this
      ensures (feeTodayError, feeFutureError) == FeeErrors(feeToday, feeFuture, parse)
      ensures isValid <==> !InvalidFee(feeToday, parse) && !InvalidFee(feeFuture, parse)
      ensures isModalOpen == old(isModalOpen) && feeToday == old(feeToday) && feeFuture == old(feeFuture)
      ensures sent == old(sent)
    {
      var todayError := "";
      var futureError := "";
      isValid := true;
      if feeToday == "" || LessThanZero(parse(feeToday)) {
        todayError := TodayMessage;
        isValid := false;
      }
      if feeFuture == "" || LessThanZero(parse(feeFuture)) {
        futureError := FutureMessage;
        isValid := false;
      }
      feeTodayError := todayError;
      feeFutureError := futureError;
    }

    /** The submit: an invalid form shows its messages and sends nothing; a valid one sends the
      payload, and on success the modal closes and the form is blanked. A failure returns its
      message and keeps the modal as it is. */
    method HandleSubmit(existing: Option<FeeRecord>, parse: ParseFloat, reply: Reply) returns (error: Option<string>)
      requires isModalOpen
      modifies this
      ensures (old(InvalidFee(feeToday, parse)) || old(InvalidFee(feeFuture, parse))) ==>
        sent == old(sent) && isModalOpen && error.None?
        && feeToday == old(feeToday) && feeFuture == old(feeFuture)
        && (feeTodayError, feeFutureError) == FeeErrors(feeToday, feeFuture, parse)
      ensures !old(InvalidFee(feeToday, parse)) && !old(InvalidFee(feeFuture, parse)) ==>
        sent == old(sent) + [Payload(old(feeToday), old(feeFuture), existing, parse)]
      ensures !old(InvalidFee(feeToday, parse)) && !old(InvalidFee(feeFuture, parse)) && reply.Saved? ==>
        !isModalOpen && feeToday == "" && feeFuture == "" && feeTodayError == "" && feeFutureError == ""
        && error.None?
      ensures !old(InvalidFee(feeToday, parse)) && !old(InvalidFee(feeFuture, parse)) && reply.Failed? ==>
        isModalOpen && error == Some(FailureMessage(reply.message, existing))
        && feeToday == old(feeToday) && feeFuture == old(feeFuture) && feeTodayError == "" && feeFutureError == ""
      ensures Valid()
    {
      error := None;
      var isValid := ValidateForm(parse);
      if !isValid {
        return;
      }
      var payload := Payload(feeToday, feeFuture, existing, parse);
      sent := sent + [payload];
      match reply
      case Saved =>
        SetModalOpen(false);
      case Failed(message) =>
        error := Some(FailureMessage(message, existing));
    }
  }
}
