# Order management: a Dafny model of the order resource

The service keeps purchase orders and exposes them under `/orders`. Clients
can read, create, update and delete orders. This project models three parts
of it:

- **The order entity** (module `Model`, file `Order.dfy`). It holds the five
  fields of `Order`, each nullable as in Java, and the setters as update
  functions. It also holds the three Bean Validation (JSR 380) constraints
  declared on the entity, written as an explicit `Validate` function.
  - `@NotBlank` is the reference implementation's check: the value is not
    null, and it is not empty once `String.trim` has removed every character
    at or below U+0020. A lemma proves that a value fails the check exactly
    when it is null or made only of such characters.
  - Bean Validation's `@Positive` treats a null value as valid. Otherwise the
    value must be strictly above zero.
- **The order store** (module `Repository`, file `OrderRepository.dfy`). The
  repository interface is a table: a `map<int, Order>` plus the next identity
  value. Its contract covers what the repository tests check through
  `save`'s result and `findById`:
  - `save` of an order without id assigns a fresh id.
  - `save` of an order with an id writes the row under that id.
  - `findById` returns the row or nothing.
  - `deleteById` removes the row.
- **The controller** (module `Controller`, file `OrderController.dfy`). It is a
  class holding the repository, with one method per endpoint. Each method
  returns a `Response(status, body)`.
  - `CreateOrder` receives the binding result's field errors as a list. The
    predicate `Reports` and its lemma connect that list to `Validate`.
  - A client method (`CreateGetUpdateDeleteScenario`) calls the endpoints in
    sequence using only their contracts; it is verified, not executed.

Three behaviours one might expect are not what the code does, and the model
follows the code:

- A total is not required: `total` has `@Positive` but no `@NotNull`, so a
  null total passes validation.
- An update is not validated: `updateOrder` does no validation in its body,
  so `UpdateOrder` saves whatever name, address and total the payload carries.
- Errors have no fixed field order: the controller keeps the binding result's
  order of errors, and `Validate` is specified only by which messages it
  contains, each at most once.

## Model

| member | source | states |
|---|---|---|
| `Model.NewOrder` | src/main/java/com/example/ordermanagement/model/Order.java:10-21 | a freshly constructed order has every field null, the id included |
| `Model.SettersChangeOnlyTheirField` | src/main/java/com/example/ordermanagement/model/Order.java:24-62 | each setter gives its field the new value, which its getter then returns, and leaves the other four fields as they were |
| `Model.BlankMeansOnlyWhitespace` | src/main/java/com/example/ordermanagement/model/Order.java:15-19 | a string fails @NotBlank exactly when it is null or every character in it is at or below U+0020 |
| `Model.TrimEmptyIffAllTrimmable` | src/main/java/com/example/ordermanagement/model/Order.java:15-16 | trimming leaves nothing exactly when every character is one that trim removes |
| `Model.Validate` | src/main/java/com/example/ordermanagement/model/Order.java:15-21 | "Customer name is required" occurs iff the name is blank; "Shipping address is required" occurs iff the address is blank; "Total must be a positive value" occurs iff the total is non-null and not above zero; no other message appears, and none appears twice |
| `Model.ValidateEmptyIffValid` | src/main/java/com/example/ordermanagement/model/Order.java:15-21 | an order yields no error exactly when its name and address are not blank and its total is positive or null |
| `Model.ValidateIgnoresIdAndDate` | src/main/java/com/example/ordermanagement/model/Order.java:11-17 | id and order date carry no constraint: changing them never changes the errors |
| `Repository.OrderRepository.FindById` | src/test/java/com/example/ordermanagement/OrderRepositoryTest.java:47-62 | returns the stored order exactly when the id is in the table, and that order carries the id; the table is not changed |
| `Repository.OrderRepository.Save` | src/test/java/com/example/ordermanagement/OrderRepositoryTest.java:19-45 | the returned order is the given one with an id (the next identity value if it had none); the table maps that id to it and nothing else changes; the table invariant is kept |
| `Repository.SaveThenFindById` | src/test/java/com/example/ordermanagement/OrderRepositoryTest.java:29-44 | after a save the returned id resolves to an order with the saved name, date, address and total; an id-less order gets an id no row had; other rows are untouched; the invariant holds |
| `Repository.SaveStoredOrderOverwrites` | src/test/java/com/example/ordermanagement/OrderRepositoryTest.java:64-84 | saving an order that carries the id of a stored row writes it under that same id and hands out no new id |
| `Repository.OrderRepository.DeleteById` | src/test/java/com/example/ordermanagement/OrderRepositoryTest.java:86-104 | the row with that id is removed and nothing else changes |
| `Repository.DeleteThenFindById` | src/test/java/com/example/ordermanagement/OrderRepositoryTest.java:96-103 | on a table that satisfies its invariant, removing an id leaves the invariant intact, that id no longer resolves, and every other row is as before |
| `Controller.OrderController.GetOrderById` | src/main/java/com/example/ordermanagement/controller/OrderController.java:33-40 | 200 with exactly the stored order when the id is present, 404 with no body otherwise; nothing is modified |
| `Controller.DefaultMessages` | src/main/java/com/example/ordermanagement/controller/OrderController.java:47-50 | one message per field error, the i-th being the i-th error's default message |
| `Controller.OrderController.CreateOrder` | src/main/java/com/example/ordermanagement/controller/OrderController.java:44-57 | with errors: 400 whose body lists the errors' messages in order, and the store is unchanged; without: the order is saved unmodified apart from its new id, and 201 carries the saved order |
| `Controller.ReportedMessagesAreViolations` | src/main/java/com/example/ordermanagement/controller/OrderController.java:47-50 | when the field errors report an order's violations, a message is among their default messages exactly when Validate produces it |
| `Controller.CreateRejectsExactlyTheInvalid` | src/main/java/com/example/ordermanagement/controller/OrderController.java:44-51 | when the field errors report the order's violations, create rejects exactly the invalid orders, and the 400 body contains each failed constraint's message and no other |
| `Controller.CreateStoresOnlyValid` | src/main/java/com/example/ordermanagement/controller/OrderController.java:45-56 | when the field errors report the order's violations and there are none, the order create saves satisfies all three constraints |
| `Controller.SingleViolationScenarios` | src/test/java/com/example/ordermanagement/OrderControllerTest.java:119-187 | an empty name, an empty address and a total of -100 each yield exactly their own single message |
| `Controller.UpdatedKeepsIdAndDate` | src/main/java/com/example/ordermanagement/controller/OrderController.java:65-68 | the updated order takes name, address and total from the payload and keeps the stored id and order date |
| `Controller.OrderController.UpdateOrder` | src/main/java/com/example/ordermanagement/controller/OrderController.java:61-74 | absent id: 404 and the store unchanged, whatever the payload; present id: the stored order with the payload's three fields replaces that row alone, the identity counter is kept, and 200 carries it |
| `Controller.OrderController.DeleteOrder` | src/main/java/com/example/ordermanagement/controller/OrderController.java:78-87 | present id: exactly that row is removed and 200 has no body; absent id: 404 and the store unchanged |
| `Controller.OrderController.HandleException` | src/main/java/com/example/ordermanagement/controller/OrderController.java:90-95 | any exception becomes a 400 whose body is the exception's message, null if it has none |

## Left out

- Spring wiring, routing, JSON (de)serialisation and `ResponseEntity` plumbing. Responses are a plain `Response(status, body)` value.
- Whether the framework runs `@Valid` at all. This includes the `javax.validation` annotations next to `jakarta.persistence`, and a framework-level rejection of an invalid PUT before `updateOrder` runs. The model does what the method bodies do.
- Global (object-level) errors of the binding result. `hasErrors()` is modelled as "the list of field errors is non-empty"; these constraints produce field errors only.
- Null default messages on field errors. Every message in the model is a string.
- The relational database, JPA and Hibernate. The store is a map with an identity counter.
- `Repository.OrderRepository.Save`: an order whose id is not in the table is written under that id, and the counter moves past it. What a JPA merge does with an unknown id depends on the Hibernate version, so it is not modelled.
- `Repository.OrderRepository.Save`: JPA writes the generated id into the caller's own `Order` object. Orders here are values, so the argument keeps no id; only the returned order carries it. The repository tests rely on that in-place write when they look up `order.getId()` and save the same object a second time. The controller uses only the returned order.
- The invariant that every stored order is valid. `CreateStoresOnlyValid` proves it for create, but `UpdateOrder` can store an order with a blank name or address or a non-positive total, because the update body does no validation.
- Storage failures. Nothing in the model throws, so `HandleException` is modelled on its own, and no operation is shown to reach it.
- The 64-bit range of `Long` ids and identity values. Ids are unbounded integers.
- `Double` semantics of `total` (NaN, infinities, rounding). The total is a `real`, and only its sign is tested.
- `LocalDate`. The order date is an opaque value that is stored and returned but never inspected.
- Concurrency across requests. Each method runs alone against the store.
