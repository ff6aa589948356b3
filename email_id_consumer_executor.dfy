/**
 * Resolution of the email ids an email operation is applied to.
 *
 * An operation receives an optional explicit email id and the incoming
 * message. With an explicit id the operation's consumer is applied to that id
 * alone. Without one, the ids are taken from the message payload: each element
 * of a list payload in turn, or a single operation result. Whatever cannot
 * supply an id raises an exception. The consumer is modelled by the sequence
 * of ids it accepted, in order; an exception ends the run and leaves that
 * sequence as it was at the moment of the exception.
 */
module EmailIdConsumerExecutor {
  import opened Wrappers

  /** The message of every exception raised for want of an id. */
  const NO_ID_ERROR: string :=
    "Expecting an explicit emailId value or email attributes in the incoming mule message in order to store an email."

  /** The exceptions resolution can raise. */
  datatype EmailError =
    | EmailException(message: string)
      /** The attributes present were not email attributes, so the downcast failed. */
    | ClassCastException

  /** Attributes of an operation result: email attributes with their id, or attributes of any other type. */
  datatype Attributes = EmailAttributes(id: int) | ForeignAttributes

  /** An operation result, with its optional attributes. */
  datatype OperationResult = OperationResult(attributes: Option<Attributes>)

  /** An element of a list payload: an operation result, or any other object (null included). */
  datatype Element = ResultElement(result: OperationResult) | OtherElement

  /** The payload of the incoming message. */
  datatype Payload =
    | ListPayload(elements: seq<Element>)
    | ResultPayload(result: OperationResult)
      /** Every other payload, null included. */
    | OtherPayload

  datatype Message = Message(payload: Payload)

  /** The ids the consumer accepted, in order, and the exception that ended the run, if any. */
  datatype Outcome = Outcome(accepted: seq<int>, failure: Option<EmailError>)

  /** The id carried by an operation result, or the exception raised when it carries none. */
  function GetIdOrFail(result: OperationResult): (r: Result<int, EmailError>)
    ensures r.Ok? <==> result.attributes.Some? && result.attributes.value.EmailAttributes?
    ensures r.Ok? ==> r.value == result.attributes.value.id
    ensures result.attributes.None? ==> r == Err(EmailException(NO_ID_ERROR))
    ensures result.attributes == Some(ForeignAttributes) ==> r == Err(ClassCastException)
  {
    match result.attributes
    case Some(attributes) =>
      if attributes.EmailAttributes? then Ok(attributes.id) else Err(ClassCastException)
    case None => Err(EmailException(NO_ID_ERROR))
  }

  /** What the list loop obtains from one element: its id, or the exception raised on it. */
  function ElementId(e: Element): (r: Result<int, EmailError>)
    ensures e.OtherElement? ==> r == Err(EmailException(NO_ID_ERROR))
    ensures e.ResultElement? ==> r == GetIdOrFail(e.result)
  {
    match e
    case ResultElement(result) => GetIdOrFail(result)
    case OtherElement => Err(EmailException(NO_ID_ERROR))
  }

  /** The outcome of applying the consumer to the elements of a list payload, from the head. */
  function ListOutcome(elements: seq<Element>): (r: Outcome)
    ensures |r.accepted| <= |elements|
    ensures r.failure.None? <==> |r.accepted| == |elements|
  {
    if elements == [] then Outcome([], None)
    else
      match ElementId(elements[0])
      case Err(e) => Outcome([], Some(e))
      case Ok(id) =>
        var rest := ListOutcome(elements[1..]);
        Outcome([id] + rest.accepted, rest.failure)
  }

  /** The reference outcome of one execution, given the explicit id (None for null) and the message. */
  function Dispatch(message: Message, emailId: Option<int>): Outcome
  {
    match emailId
    case Some(id) => Outcome([id], None)
    case None =>
      match message.payload
      case ListPayload(elements) => ListOutcome(elements)
      case ResultPayload(result) =>
        (match GetIdOrFail(result)
         case Ok(id) => Outcome([id], None)
         case Err(e) => Outcome([], Some(e)))
      case OtherPayload => Outcome([], Some(EmailException(NO_ID_ERROR)))
  }

  /**
   * Applies the consumer to the id or ids the message stands for. Returns the
   * ids accepted, in order, and the exception that ended the run, if any.
   */
  method Execute(message: Message, emailId: Option<int>) returns (accepted: seq<int>, failure: Option<EmailError>)
    ensures Outcome(accepted, failure) == Dispatch(message, emailId)
  {
    accepted, failure := [], None;
    var id: int;
    if emailId.None? {
      var payload := message.payload;
      if payload.ListPayload? {
        var elements := payload.elements;
        var i := 0;
        while i < |elements|
          invariant 0 <= i <= |elements|
          invariant ListOutcome(elements)
                 == Outcome(accepted + ListOutcome(elements[i..]).accepted, ListOutcome(elements[i..]).failure)
        {
          var o := elements[i];
          assert elements[i..][0] == o && elements[i..][1..] == elements[i + 1..];
          if o.ResultElement? {
            var r := GetIdOrFail(o.result);
            if r.Err? {
              failure := Some(r.error);
              return;
            }
            id := r.value;
            accepted := accepted + [id];
          } else {
            failure := Some(EmailException(NO_ID_ERROR));
            return;
          }
          i := i + 1;
        }
        assert elements[i..] == [];
        return;
      }
      var result := message.payload;
      if result.ResultPayload? {
        var r := GetIdOrFail(result.result);
        if r.Err? {
          failure := Some(r.error);
          return;
        }
        id := r.value;
      } else {
        failure := Some(EmailException(NO_ID_ERROR));
        return;
      }
    } else {
      id := emailId.value;
    }
    accepted := accepted + [id];
  }

  /** With an explicit id the consumer accepts that id once, whatever the payload. */
  lemma ExplicitIdIgnoresPayload(message: Message, id: int)
    ensures Dispatch(message, Some(id)) == Outcome([id], None)
  {
  }

  /**
   * The list outcome, element by element: the accepted ids are those of the
   * leading elements, in list order; the run ends without an exception exactly
   * when every element yields an id; otherwise the exception is the one the
   * first element without an id raises, and no element after it is consumed.
   */
  lemma {:induction false} ListOutcomeElementwise(elements: seq<Element>)
    ensures var r := ListOutcome(elements);
            forall j :: 0 <= j < |r.accepted| ==> ElementId(elements[j]) == Ok(r.accepted[j])
    ensures var r := ListOutcome(elements);
            r.failure.Some? ==> ElementId(elements[|r.accepted|]) == Err(r.failure.value)
    ensures ListOutcome(elements).failure.None? <==> forall j :: 0 <= j < |elements| ==> ElementId(elements[j]).Ok?
  {
    if elements != [] {
      ListOutcomeElementwise(elements[1..]);
      var r := ListOutcome(elements);
      match ElementId(elements[0])
      case Err(e) =>
      case Ok(id) =>
        var rest := ListOutcome(elements[1..]);
        assert r.accepted == [id] + rest.accepted;
        forall j | 0 <= j < |r.accepted|
          ensures ElementId(elements[j]) == Ok(r.accepted[j])
        {
          if j > 0 {
            assert elements[j] == elements[1..][j - 1];
          }
        }
        if r.failure.Some? {
          assert elements[|r.accepted|] == elements[1..][|rest.accepted|];
        }
        if forall j :: 0 <= j < |elements| ==> ElementId(elements[j]).Ok? {
          forall j | 0 <= j < |elements[1..]|
            ensures ElementId(elements[1..][j]).Ok?
          {
            assert elements[1..][j] == elements[j + 1];
          }
        }
    }
  }

  /**
   * In a list payload whose elements all yield an id, the consumer accepts
   * one id per element, in list order, and no exception is raised.
   */
  lemma AllElementsConsumed(elements: seq<Element>)
    requires forall j :: 0 <= j < |elements| ==> ElementId(elements[j]).Ok?
    ensures var r := Dispatch(Message(ListPayload(elements)), None);
            r.failure.None? && |r.accepted| == |elements| &&
            forall j :: 0 <= j < |elements| ==> r.accepted[j] == ElementId(elements[j]).value
  {
    ListOutcomeElementwise(elements);
  }

  /**
   * In a list payload, when an element yields no id, the ids accepted are
   * exactly those of the elements before the first such element, and the
   * exception is the one that element raises: NO_ID_ERROR for an element that
   * is not an operation result or carries no attributes.
   */
  lemma FirstFailureStopsList(elements: seq<Element>, k: nat)
    requires k < |elements| && ElementId(elements[k]).Err?
    requires forall j :: 0 <= j < k ==> ElementId(elements[j]).Ok?
    ensures var r := Dispatch(Message(ListPayload(elements)), None);
            |r.accepted| == k < |elements| && r.failure == Some(ElementId(elements[k]).error) &&
            forall j :: 0 <= j < k ==> r.accepted[j] == ElementId(elements[j]).value
  {
    ListOutcomeElementwise(elements);
    var r := ListOutcome(elements);
    assert r.failure.Some?;
    assert |r.accepted| >= k;
    assert |r.accepted| <= k;
  }

  /** An empty list payload: no id is accepted and no exception is raised. */
  lemma EmptyListConsumesNothing()
    ensures Dispatch(Message(ListPayload([])), None) == Outcome([], None)
  {
  }

  /**
   * A single operation result: its id is accepted once, or the exception
   * GetIdOrFail raises ends the run with nothing accepted.
   */
  lemma SingleResultPayload(result: OperationResult)
    ensures var r := Dispatch(Message(ResultPayload(result)), None);
            match GetIdOrFail(result)
            case Ok(id) => r == Outcome([id], None)
            case Err(e) => r == Outcome([], Some(e))
  {
  }

  /** Any other payload without an explicit id: NO_ID_ERROR, nothing accepted. */
  lemma OtherPayloadFails()
    ensures Dispatch(Message(OtherPayload), None) == Outcome([], Some(EmailException(NO_ID_ERROR)))
  {
  }
}
