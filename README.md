# Author and publisher stores

A Dafny model of the core of a small Spring web service that keeps two
in-memory lists, one of authors and one of publishers, and offers list,
create, get, update and delete on each. Get, update and delete address a
record by its zero-based position in the list, not by any id.

- `AuthorEntity` (`author.dfy`) models `Author`: a class with an immutable
  `id` and mutable `name` and `email`. Java's static `nextID` becomes an
  `IdCounter` object that every construction receives and bumps. Java's
  32-bit `int` is the newtype `int32`, so the counter's wrap-around at
  2^31 - 1 is explicit (`Increment`).
- `PublisherEntity` (`publisher.dfy`) models the `(name, city)` record the
  publisher store holds, with its constructor, getters and setters.
- `AuthorStore` (`authors_controller.dfy`) and `PublisherStore`
  (`publishers_controller.dfy`) model the two controllers. Each is a class
  whose `seq` field of object references is the `ArrayList`. Create appends;
  delete splices out (`Positional.RemoveAt`, in `positional.dfy`); update calls
  the setters on the stored object, in place.
- The two stores differ on purpose, as the code does:
  - The publisher store checks `0 <= id < size` and otherwise answers
    `BadRequest("Id out of range")`.
  - The author store checks only `id < size`. At or past the end it answers
    `Null`. A negative index passes the guard, and `ArrayList.get`/`remove`
    then throws. That case is `IndexOutOfBounds`, a separate outcome.
  - In every failing case the list is unchanged.
- `AuthorStore.Post` and `AuthorStore.Put` model the two requests whose body
  the framework turns into a new `Author` before the controller runs. So PUT
  bumps the counter too, although `update` keeps only the name and email.
- `Scenarios` (`scenarios.dfy`) drives the stores from process start and
  proves each outcome from the contracts alone.
- Aliasing is modelled:
  - The lists hold object references.
  - Update's contract says that every position holding the updated object
    shows the change.
  - `Distinct` (no object in two positions) is the condition under which the
    record-level view `Records()` changes at exactly one position.
  - The constructors establish `Distinct`. Create keeps it when the appended
    object is not already listed. Delete keeps it.

In the code, `create` receives an `Author` that is already built; the
framework builds it from the request body, so `Create` takes an `Author` and
`Post` models the building.

## Model

| member | source | states |
|---|---|---|
| `Positional.RemoveAt` | src/main/java/com/booleanuk/api/PublishersController.java:55 | `ArrayList.remove(i)`: one element fewer, positions before `i` unchanged, every later element one position down, same multiset minus the removed element |
| `AuthorEntity.Increment` | src/main/java/com/booleanuk/api/Author.java:10 | `nextID += 1` on a Java `int`: the result is `x + 1` modulo 2^32 and is larger than `x` unless `x` is the largest `int` |
| `AuthorEntity.IdCounter.constructor` | src/main/java/com/booleanuk/api/Author.java:4 | the shared counter starts at 0 |
| `AuthorEntity.Author.constructor` | src/main/java/com/booleanuk/api/Author.java:9-14 | the counter goes up by exactly one, its new value becomes the id, and the getters return the given name and email |
| `AuthorEntity.Author.SetName` | src/main/java/com/booleanuk/api/Author.java:24-26 | `GetName` afterwards returns the new name; the email is unchanged (the id is a `const`) |
| `AuthorEntity.Author.SetEmail` | src/main/java/com/booleanuk/api/Author.java:32-34 | `GetEmail` afterwards returns the new email; the name is unchanged (the id is a `const`) |
| `AuthorEntity.RecordsOf` | src/main/java/com/booleanuk/api/Author.java:16-30 | the list of authors seen through the getters: same length, position k is the record of the k-th author |
| `AuthorEntity.IdsIncrease` | src/main/java/com/booleanuk/api/Author.java:4-11 | until the counter wraps, the ids `IdsFrom` lists for n constructions from counter value c are c+1, ..., c+n: strictly increasing, and 1 first from a fresh counter |
| `AuthorEntity.IdsWrapAround` | src/main/java/com/booleanuk/api/Author.java:10-11 | the construction after the counter reaches 2^31 - 1 gets id -2^31 |
| `AuthorStore.AuthorsController.constructor` | src/main/java/com/booleanuk/api/AuthorsController.java:13-18 | the list is exactly Tolkien then Austen with their emails, with the next two counter values as ids (1 and 2 from a fresh counter), two fresh distinct objects |
| `AuthorStore.AuthorsController.GetAll` | src/main/java/com/booleanuk/api/AuthorsController.java:20-23 | returns the current list and its records |
| `AuthorStore.AuthorsController.Create` | src/main/java/com/booleanuk/api/AuthorsController.java:25-30 | appends the given author at the end and returns it; earlier positions are unchanged |
| `AuthorStore.AuthorsController.GetOneAuthor` | src/main/java/com/booleanuk/api/AuthorsController.java:32-38 | the author at `id` when `0 <= id < size`, `Null` when `id >= size`, `IndexOutOfBounds` when `id < 0`; the list is not changed |
| `AuthorStore.AuthorsController.Update` | src/main/java/com/booleanuk/api/AuthorsController.java:40-49 | in range, name and email of the object at `id` take the argument's values, its id stays, no other object changes, the list is the same, and that author is returned; `Null` past the end and `IndexOutOfBounds` below zero, with nothing changed |
| `AuthorStore.AuthorsController.Delete` | src/main/java/com/booleanuk/api/AuthorsController.java:51-57 | in range, returns the author at `id` and the list becomes `RemoveAt(old list, id)`, also as records; `Null` past the end and `IndexOutOfBounds` below zero, with the list unchanged |
| `AuthorStore.Post` | src/main/java/com/booleanuk/api/AuthorsController.java:25-30 | the counter goes up by one, a fresh author with that id and the body's name and email is appended and returned, and its id exceeds every listed id while the counter does not wrap |
| `AuthorStore.Put` | src/main/java/com/booleanuk/api/AuthorsController.java:40-49 | the counter goes up by one whatever the outcome, and the stored author takes the body's name and email but keeps its old id |
| `PublisherEntity.Publisher.constructor` | src/main/java/com/booleanuk/api/PublishersController.java:17-18 | the getters return the given name and city |
| `PublisherEntity.Publisher.SetName` | src/main/java/com/booleanuk/api/PublishersController.java:45 | `GetName` afterwards returns the new name; the city is unchanged |
| `PublisherEntity.Publisher.SetCity` | src/main/java/com/booleanuk/api/PublishersController.java:46 | `GetCity` afterwards returns the new city; the name is unchanged |
| `PublisherEntity.RecordsOf` | src/main/java/com/booleanuk/api/PublishersController.java:21-24 | the list of publishers seen through the getters: same length, position k is the record of the k-th publisher |
| `PublisherStore.PublishersController.constructor` | src/main/java/com/booleanuk/api/PublishersController.java:14-19 | the list is exactly Kunnskapsforlaget/Trondheim then Damm/Bergen, two fresh distinct objects |
| `PublisherStore.PublishersController.GetAll` | src/main/java/com/booleanuk/api/PublishersController.java:21-24 | returns the current list and its records |
| `PublisherStore.PublishersController.GetOnePublisher` | src/main/java/com/booleanuk/api/PublishersController.java:26-32 | the publisher at `id` exactly when `0 <= id < size`, otherwise `BadRequest("Id out of range")`; the list is not changed |
| `PublisherStore.PublishersController.Create` | src/main/java/com/booleanuk/api/PublishersController.java:34-39 | appends the given publisher at the end and returns it; earlier positions are unchanged |
| `PublisherStore.PublishersController.Update` | src/main/java/com/booleanuk/api/PublishersController.java:41-50 | in range, name and city of the object at `id` take the argument's values, no other object changes, the list is the same, and that publisher is returned; otherwise `BadRequest("Id out of range")` with nothing changed |
| `PublisherStore.PublishersController.Delete` | src/main/java/com/booleanuk/api/PublishersController.java:52-58 | in range, returns the publisher at `id` and the list becomes `RemoveAt(old list, id)`, also as records; otherwise `BadRequest("Id out of range")` with the list unchanged |
| `Scenarios.SuccessiveConstructions` | src/main/java/com/booleanuk/api/Author.java:4-11 | three authors built from a fresh counter get exactly the ids `IdsFrom(0, 3)`, that is 1, 2 and 3, and the counter ends at 3 |
| `Scenarios.PostThirdAuthor` | src/main/java/com/booleanuk/api/AuthorsController.java:13-30 | from process start the seeded ids are 1 and 2, a POST of Mary Shelley gets id 3, and the list then has three authors |
| `Scenarios.PutThenPost` | src/main/java/com/booleanuk/api/AuthorsController.java:40-49 | a PUT keeps the stored id 1 but uses up id 3, so the next POST gets id 4 |
| `Scenarios.IdIsNotThePosition` | src/main/java/com/booleanuk/api/AuthorsController.java:51-57 | after deleting position 0 (id 1), position 0 holds the author with id 2 |
| `Scenarios.AuthorsOutOfRange` | src/main/java/com/booleanuk/api/AuthorsController.java:52-56 | delete past the end is `Null`, delete at -1 is `IndexOutOfBounds`, and both leave the two seeded authors |
| `Scenarios.DeletePublishers` | src/main/java/com/booleanuk/api/PublishersController.java:52-58 | delete 5 of the seeded list is `BadRequest("Id out of range")`; delete 0 returns Kunnskapsforlaget/Trondheim and leaves only Damm/Bergen |
| `Scenarios.UpdatePublishers` | src/main/java/com/booleanuk/api/PublishersController.java:41-50 | updating position 1 replaces only that record; get at -1 is `BadRequest("Id out of range")` |

The getters `GetId`, `GetName`, `GetEmail` (Author.java:16-30) and
`GetName`, `GetCity` of the publisher are plain reads of the fields. They are
stated through the constructor and setter contracts above, which are written
in terms of them.

## Left out

- Spring routing, the HTTP status codes and JSON (de)serialisation of request
  and response bodies. Outcomes are result values (`AuthorReply`,
  `PublisherReply`), not HTTP responses. How a client sees `Null`,
  `IndexOutOfBounds` and `BadRequest` (empty body, 404, 400, 500) is decided
  by the framework and not modelled.
- `getAll` returns the live list object in Java, so a caller could change the
  store through it. The model returns the current sequence of references, a
  value. Changes to the listed objects are visible through it; changes to
  the list itself are not.
- The framework's building of a `Publisher` from a request body is not
  modelled. `PublishersController` receives a `Publisher` object, as its
  methods do in Java. Publisher.java is not part of this model; only the
  construction and the four accessors the controller uses are modelled.
- Concurrency: the lists and the counter are unsynchronised in the source.
  The model is sequential.
- Java `null` for a request body, a missing field or a string is not
  modelled. Names, emails and cities are always strings.
- The `{id}` path variable is a Java `int`; the model accepts any
  integer, a superset. Lists longer than 2^31 - 1 elements, which an
  `ArrayList` cannot hold, are not excluded.
