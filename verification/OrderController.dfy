/**
 * The REST controller for /orders (controller/OrderController.java): get,
 * create, update and delete over the repository, and the handler that turns
 * any exception into a 400 response.
 */
module Controller {
  import opened Wrappers
  import opened Model
  import opened Repository

  // HTTP status codes the controller answers with.
  const OK: int := 200
  const CREATED: int := 201
  const BAD_REQUEST: int := 400
  const NOT_FOUND: int := 404

  /** A field error of the binding result: object name, field name and default message. */
  datatype FieldError = FieldError(objectName: string, field: string, defaultMessage: string)

  /** An exception reaching the controller; getMessage() may be null. */
  datatype Exception = Exception(message: Option<string>)

  /** What a response carries: nothing, one order, a list of messages, or a plain text that may be null. */
  datatype Body = NoBody | OrderBody(order: Order) | MessageList(messages: seq<string>) | Text(text: Option<string>)

  datatype Response = Response(status: int, body: Body)

  /** The default messages of the field errors, one per error, in the order given. */
  function DefaultMessages(errors: seq<FieldError>): (messages: seq<string>)
    ensures |messages| == |errors|
    ensures forall i :: 0 <= i < |errors| ==> messages[i] == errors[i].defaultMessage
  {
    if errors == [] then [] else [errors[0].defaultMessage] + DefaultMessages(errors[1..])
  }

  /**
   * The binding result reports exactly the constraint violations of `order`:
   * the same messages as Validate, in whatever order.
   */
  predicate Reports(errors: seq<FieldError>, order: Order) {
    multiset(DefaultMessages(errors)) == multiset(Validate(order))
  }

  /** Field errors that report an order's violations carry exactly Validate's messages. */
  lemma ReportedMessagesAreViolations(errors: seq<FieldError>, order: Order, message: string)
    requires Reports(errors, order)
    ensures message in DefaultMessages(errors) <==> message in Validate(order)
  {
    assert message in DefaultMessages(errors) <==> message in multiset(DefaultMessages(errors));
  }

  /**
   * When the binding result reports the violations of the posted order,
   * create rejects it exactly when one of the three constraints fails, and
   * the 400 body then names every failed constraint.
   */
  lemma CreateRejectsExactlyTheInvalid(errors: seq<FieldError>, order: Order)
    requires Reports(errors, order)
    ensures errors != [] <==> !IsValid(order)
    ensures CustomerNameRequired in DefaultMessages(errors) <==> !NotBlank(order.customerName)
    ensures ShippingAddressRequired in DefaultMessages(errors) <==> !NotBlank(order.shippingAddress)
    ensures TotalMustBePositive in DefaultMessages(errors) <==> !Positive(order.total)
    ensures forall m :: m in DefaultMessages(errors) ==>
              m == CustomerNameRequired || m == ShippingAddressRequired || m == TotalMustBePositive
  {
    ValidateEmptyIffValid(order);
    forall m | m in DefaultMessages(errors)
      ensures m == CustomerNameRequired || m == ShippingAddressRequired || m == TotalMustBePositive
    {
      ReportedMessagesAreViolations(errors, order, m);
    }
    assert |errors| == |multiset(DefaultMessages(errors))| == |multiset(Validate(order))| == |Validate(order)|;
    ReportedMessagesAreViolations(errors, order, CustomerNameRequired);
    ReportedMessagesAreViolations(errors, order, ShippingAddressRequired);
    ReportedMessagesAreViolations(errors, order, TotalMustBePositive);
  }

  /**
   * When the field errors report the posted order's violations, an order
   * that create saves (no errors, so a 201) satisfies all three constraints.
   */
  lemma CreateStoresOnlyValid(errors: seq<FieldError>, order: Order, nextId: int)
    requires Reports(errors, order) && errors == []
    ensures IsValid(Persisted(order, nextId))
  {
    CreateRejectsExactlyTheInvalid(errors, order);
    ValidateEmptyIffValid(order);
    ValidateEmptyIffValid(Persisted(order, nextId));
    ValidateIgnoresIdAndDate(order, Persisted(order, nextId).id, order.orderDate);
    assert order.SetId(Persisted(order, nextId).id).SetOrderDate(order.orderDate) == Persisted(order, nextId);
  }

  /** What the update stores: the stored order with the payload's name, address and total. */
  function Updated(stored: Order, payload: Order): Order {
    stored.SetCustomerName(payload.customerName)
          .SetShippingAddress(payload.shippingAddress)
          .SetTotal(payload.total)
  }

  /** An update takes the three editable fields from the payload and keeps the stored id and date. */
  lemma UpdatedKeepsIdAndDate(stored: Order, payload: Order)
    ensures Updated(stored, payload).id == stored.id
    ensures Updated(stored, payload).orderDate == stored.orderDate
    ensures Updated(stored, payload).customerName == payload.customerName
    ensures Updated(stored, payload).shippingAddress == payload.shippingAddress
    ensures Updated(stored, payload).total == payload.total
  {
  }

  class OrderController {
    const repository: OrderRepository

    ghost predicate Valid()
      reads repository
    {
      repository.Valid()
    }

    constructor (repository: OrderRepository)
      ensures this.repository == repository
    {
      this.repository := repository;
    }

    /** GET /orders/{id}: 200 with the stored order, or 404 with no body. */
    method GetOrderById(id: int) returns (response: Response)
      requires Valid()
      ensures id in repository.rows ==> response == Response(OK, OrderBody(repository.rows[id]))
      ensures id !in repository.rows ==> response == Response(NOT_FOUND, NoBody)
    {
      var optionalOrder := repository.FindById(id);
      if optionalOrder.Some? {
        response := Response(OK, OrderBody(optionalOrder.value));
      } else {
        response := Response(NOT_FOUND, NoBody);
      }
    }

    /**
     * POST /orders: with field errors, 400 with their messages and the store
     * untouched; without, the order is saved as given and returned with 201.
     */
    method CreateOrder(order: Order, errors: seq<FieldError>) returns (response: Response)
      requires Valid()
      modifies repository
      ensures Valid()
      ensures errors != [] ==>
                && response == Response(BAD_REQUEST, MessageList(DefaultMessages(errors)))
                && unchanged(repository)
      ensures errors == [] ==>
                var saved := Persisted(order, old(repository.nextId));
                && response == Response(CREATED, OrderBody(saved))
                && repository.rows == old(repository.rows)[saved.id.value := saved]
                && repository.nextId == NextIdAfter(old(repository.nextId), saved.id.value)
    {
      if |errors| > 0 {
        var errorMessages: seq<string> := [];
        for i := 0 to |errors|
          invariant |errorMessages| == i
          invariant forall k :: 0 <= k < i ==> errorMessages[k] == errors[k].defaultMessage
        {
          errorMessages := errorMessages + [errors[i].defaultMessage];
        }
        assert errorMessages == DefaultMessages(errors);
        return Response(BAD_REQUEST, MessageList(errorMessages));
      }
      var savedOrder := repository.Save(order);
      response := Response(CREATED, OrderBody(savedOrder));
    }

    /**
     * PUT /orders/{id}: 404 and no save when the id is absent; otherwise the
     * stored order takes the payload's name, address and total, is saved
     * under the same id, and is returned with 200.
     */
    method UpdateOrder(id: int, updatedOrder: Order) returns (response: Response)
      requires Valid()
      modifies repository
      ensures Valid()
      ensures id !in old(repository.rows) ==>
                response == Response(NOT_FOUND, NoBody) && unchanged(repository)
      ensures id in old(repository.rows) ==>
                var saved := Updated(old(repository.rows[id]), updatedOrder);
                && response == Response(OK, OrderBody(saved))
                && repository.rows == old(repository.rows)[id := saved]
                && repository.nextId == old(repository.nextId)
    {
      var optionalOrder := repository.FindById(id);
      if optionalOrder.Some? {
        var order := optionalOrder.value;
        order := order.SetCustomerName(updatedOrder.customerName);
        order := order.SetShippingAddress(updatedOrder.shippingAddress);
        order := order.SetTotal(updatedOrder.total);
        SaveStoredOrderOverwrites(repository.rows, repository.nextId, id, order);
        var savedOrder := repository.Save(order);
        response := Response(OK, OrderBody(savedOrder));
      } else {
        response := Response(NOT_FOUND, NoBody);
      }
    }

    /** DELETE /orders/{id}: 200 with no body and the row removed, or 404 with the store untouched. */
    method DeleteOrder(id: int) returns (response: Response)
      requires Valid()
      modifies repository
      ensures Valid()
      ensures id in old(repository.rows) ==>
                && response == Response(OK, NoBody)
                && repository.rows == old(repository.rows) - {id}
                && repository.nextId == old(repository.nextId)
      ensures id !in old(repository.rows) ==>
                response == Response(NOT_FOUND, NoBody) && unchanged(repository)
    {
      var optionalOrder := repository.FindById(id);
      if optionalOrder.Some? {
        repository.DeleteById(id);
        response := Response(OK, NoBody);
      } else {
        response := Response(NOT_FOUND, NoBody);
      }
    }

    /** The catch-all exception handler: 400 with the exception's message (null stays null) as the body. */
    function HandleException(exception: Exception): (response: Response)
      ensures response.status == BAD_REQUEST
      ensures response.body.Text? && response.body.text == exception.message
    {
      Response(BAD_REQUEST, Text(exception.message))
    }
  }
  /**
   * A blank name, a blank address and a negative total each yield exactly
   * their own message and nothing else.
   */
  lemma SingleViolationScenarios()
    ensures Validate(Order(None, Some(""), None, Some("123 Main St"), Some(100.0))) == [CustomerNameRequired]
    ensures Validate(Order(None, Some("John Doe"), None, Some(""), Some(100.0))) == [ShippingAddressRequired]
    ensures Validate(Order(None, Some("John Doe"), None, Some("123 Main St"), Some(-100.0))) == [TotalMustBePositive]
  {
  }

  /**
   * A client run through the controller: create, read back, update, delete,
   * then read and update the deleted id.
   */
  method CreateGetUpdateDeleteScenario()
  {
    var repository := new OrderRepository();
    var controller := new OrderController(repository);
    var today := Some(Date(0));
    var order := NewOrder().SetCustomerName(Some("John Doe")).SetOrderDate(today)
                           .SetShippingAddress(Some("123 Main St")).SetTotal(Some(100.0));
    var created := controller.CreateOrder(order, []);
    assert created.status == CREATED && created.body.order.id == Some(1);

    var fetched := controller.GetOrderById(1);
    assert fetched.status == OK && fetched.body.order.customerName == Some("John Doe");

    var payload := NewOrder().SetCustomerName(Some("Jane Smith"))
                             .SetShippingAddress(Some("456 Elm St")).SetTotal(Some(200.0));
    var updated := controller.UpdateOrder(1, payload);
    assert updated.status == OK;
    assert repository.rows[1] == Order(Some(1), Some("Jane Smith"), today, Some("456 Elm St"), Some(200.0));

    var deleted := controller.DeleteOrder(1);
    assert deleted == Response(OK, NoBody);
    var missing := controller.GetOrderById(1);
    assert missing == Response(NOT_FOUND, NoBody);
    var notUpdated := controller.UpdateOrder(999, payload);
    assert notUpdated == Response(NOT_FOUND, NoBody);
    var notDeleted := controller.DeleteOrder(999);
    assert notDeleted == Response(NOT_FOUND, NoBody);
  }
}
