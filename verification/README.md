# Car store model

A Dafny model of the in-memory car store of a small car CRUD service. Two pieces are modelled:

- the `Car` entity: an optional id, a brand, a year and a `BigDecimal` price;
- the map-backed repository `CarRepositoryMap`: a `HashMap<Long, Car>` and a `long currentId` counter, seeded with five cars.

The repository offers `getAll`, `save`, `getById`, `update` and `delete`.

Modules:

- `JavaLang` (`java_lang.dfy`) covers the Java platform facts the model needs:
  - `int` and `long` are the subset types `Int32` and `Int64`;
  - `null` is `Option.None`;
  - `BigDecimal` is an unscaled integer paired with an `int` scale. Its structural equality is `BigDecimal.equals`, so 2.0 and 2.00 differ;
  - the JDK's hash codes for `String`, `Long`, `BigInteger`, `BigDecimal` and `Objects.hash` are written out, with wrapping 32-bit arithmetic.
- `Model` (`model_car.dfy`) models `Car` as a class with the four fields, its three constructors, the four setters, `equals` and `hashCode`. `CarValue` is a snapshot of the four fields.
- `Repository` (`repository_map.dfy`) models the class `CarRepositoryMap`. It has `storage: map<Int64, CarValue>`, `currentId: Int64` and the invariant `Valid()`: every key `k` maps to a car whose id is `k`, and `1 <= k <= currentId`. Every method keeps this invariant and states its whole new state.
- `RepositoryProperties` (`repository_properties.dfy`) holds client methods that state properties spanning several calls: save then get, delete then get, unknown ids, no reuse of deleted ids, and the seeded store.

`getAll` returns `HashMap.values()`, whose order is unspecified and is not insertion order. `GetAll` therefore picks keys in an arbitrary order and promises only that the result holds each stored car once.

## Model

| member | source | states |
|---|---|---|
| `Model.Car.constructor` | src/main/java/model/Car.java:12-13 | `new Car()` leaves id, brand and price null and the year 0 |
| `Model.Car.Unsaved` | src/main/java/model/Car.java:15-19 | the three-argument constructor sets brand, year and price and leaves id null |
| `Model.Car.WithId` | src/main/java/model/Car.java:21-26 | the four-argument constructor sets all four fields to the arguments |
| `Model.Car.SetBrand` | src/main/java/model/Car.java:28-30 | changes the brand only; the other three fields keep their values |
| `Model.Car.SetYear` | src/main/java/model/Car.java:32-34 | changes the year only; the other three fields keep their values |
| `Model.Car.SetId` | src/main/java/model/Car.java:40-42 | changes the id only; the other three fields keep their values |
| `Model.Car.SetPrice` | src/main/java/model/Car.java:56-58 | changes the price only; the other three fields keep their values |
| `Model.Car.Equals` | src/main/java/model/Car.java:70-74 | false for null; otherwise true exactly when the two cars agree on all four fields, with null-safe comparison |
| `Model.EqualsReflexive` | src/main/java/model/Car.java:70-74 | every car equals itself |
| `Model.EqualsSymmetric` | src/main/java/model/Car.java:70-74 | `a.equals(b)` holds exactly when `b.equals(a)` does |
| `Model.EqualsTransitive` | src/main/java/model/Car.java:70-74 | `equals` is transitive |
| `Model.CarHash` | src/main/java/model/Car.java:76-79 | the hash is the polynomial `31^4 + h(id)*31^3 + h(brand)*31^2 + year*31 + h(price)` reduced to 32 bits, where a null field hashes to 0 |
| `Model.EqualCarsHashAlike` | src/main/java/model/Car.java:70-79 | cars that are `equals` have the same `hashCode` |
| `Model.EmptyCarHash` | src/main/java/model/Car.java:76-79 | a car built by `new Car()` hashes to 923521, which is 31^4 |
| `JavaLang.Fold31IsPoly31` | src/main/java/model/Car.java:76-79 | the hash loop `h = 31*h + x` wraps to 32 bits at every step, and its result equals the exact polynomial reduced to 32 bits once |
| `JavaLang.LongHash` | src/main/java/model/Car.java:76-79 | the id's hash is its two 32-bit halves combined by exclusive-or; an id in `0..2^31-1` hashes to itself |
| `JavaLang.BigDecimalHash` | src/main/java/model/Car.java:76-79 | the price's hash is `31 * unscaled + scale` in 32-bit arithmetic when the unscaled value fits in an `int` |
| `Repository.InitialCarsValid` | src/main/java/repository/CarRepositoryMap.java:18-24 | the five seed cars sit under keys 1..5 with matching ids, so the store invariant holds with counter 5 |
| `Repository.CarRepositoryMap.constructor` | src/main/java/repository/CarRepositoryMap.java:14-16 | construction yields exactly the five seed cars (Mazda/2018/12000, VW/2021/15000, Ford/2022/14000, BMW/2023/35000, Opel/2024/21000) under ids 1..5, with `currentId = 5` |
| `Repository.CarRepositoryMap.InitStorage` | src/main/java/repository/CarRepositoryMap.java:18-24 | five saves on the empty store produce the seed map and the counter 5 |
| `Repository.ListingComplete` | src/main/java/repository/CarRepositoryMap.java:27-30 | a listing that visits each key once, taking the car stored under it, holds every stored car exactly once, each under its own id |
| `Repository.CarRepositoryMap.GetAll` | src/main/java/repository/CarRepositoryMap.java:27-30 | returns one entry per key, each the car stored under its own id, with no id twice and every stored car present, in unspecified order |
| `Repository.CarRepositoryMap.Save` | src/main/java/repository/CarRepositoryMap.java:32-40 | sets the car's id to the old `currentId + 1`, whatever id it carried, and increments the counter. It stores the car under that id, which was not a key before. Other entries are unchanged and the store invariant is kept |
| `Repository.CarRepositoryMap.GetById` | src/main/java/repository/CarRepositoryMap.java:42-45 | returns the stored car exactly when `id` is a key, otherwise null; the car returned carries `id`; nothing changes |
| `Repository.CarRepositoryMap.Update` | src/main/java/repository/CarRepositoryMap.java:69-81 | a null or absent id returns null with no change. A present id gets only its price replaced by the argument's price, keeping the stored id, brand and year. The updated car is returned; other entries and `currentId` are unchanged |
| `Repository.CarRepositoryMap.Delete` | src/main/java/repository/CarRepositoryMap.java:84-87 | returns the stored car and removes exactly that key, or returns null with no change when the key is absent; `currentId` is untouched |
| `RepositoryProperties.SaveThenGetById` | src/main/java/repository/CarRepositoryMap.java:33-45 | after `save`, `getById` of the new id yields the saved car, the id was new, and every earlier entry is unchanged |
| `RepositoryProperties.DeleteThenGetById` | src/main/java/repository/CarRepositoryMap.java:43-87 | after `delete(id)`, `getById(id)` is null; `delete` reported a car exactly when the id was stored |
| `RepositoryProperties.UnknownIdNotFound` | src/main/java/repository/CarRepositoryMap.java:43-87 | an id that is not stored gives null from both `getById` and `delete`, and the store does not change |
| `RepositoryProperties.DeletedIdNotReused` | src/main/java/repository/CarRepositoryMap.java:35-87 | after a stored car is deleted, the next `save` hands out a different id, because the counter never goes down |
| `RepositoryProperties.SeededStore` | src/main/java/repository/CarRepositoryMap.java:14-30 | a fresh store lists five cars, finds the Mazda under id 1 and nothing under id 6 |

## Left out

- Reference aliasing: in Java the map holds the caller's own `Car` object. The model stores value snapshots (`CarValue`) instead. So it does not capture three things:
  - setters called on a saved car after `save` change the stored entry;
  - such a call, `setId` in particular, can break the key/id invariant;
  - `update` mutates an object that other holders of the reference also see.
- `Repository.CarRepositoryMap.Save` requires `currentId < Long.MAX_VALUE`. Java's `++currentId` would wrap to a negative id after 2^63-1 saves, and that wrap-around is not modelled.
- `Repository.CarRepositoryMap.InitStorage` requires an empty store with counter 0. Its only caller is the constructor, which guarantees this.
- `getAll` order: `HashMap` iteration order is unspecified, and the model fixes no order.
- `getId`, `getBrand`, `getYear` and `getPrice` only read a field. Dafny clients read the fields directly.
- `toString`: string formatting is not modelled.
- `equals(Object)` with an argument that is not a `Car` returns false in Java. The model's `Equals` accepts only a `Car` or null.
- A null `Car` passed to `save` or `update` throws `NullPointerException` in Java. The model's parameters are non-null references.
- `JavaLang.StringHash` folds over Dafny characters, which are Unicode scalar values. Java hashes UTF-16 code units, so a brand containing characters outside the Basic Multilingual Plane hashes differently.
- `BigDecimal` arithmetic: the source performs none on prices.
- The `CarRepository` interface only declares the five operations; the class above implements them.
- `CarRepositoryPostgress` (JDBC and SQL), `CarRepositoryHibernate` (JPA `EntityManager`), `CarServlet` (HTTP and JSON) and `Constants` (connection strings) are not part of this model. They are I/O over external systems.
