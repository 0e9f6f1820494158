/**
 The in-memory car store: a map from id to car plus the last id handed out.
 `save` always hands out the next id, so the ids in the map are exactly the
 keys they are stored under, and all of them are at most the counter.
 */
module Repository {
  import opened JavaLang
  import opened Model

  /** Every key maps to a car carrying that key as its id, and keys lie in `1..last`. */
  ghost predicate IdsMatchKeys(storage: map<Int64, CarValue>, last: int)
  {
    forall k :: k in storage ==> storage[k].id == Some(k) && 1 <= k <= last
  }

  /** The five cars the store starts with, under ids 1 to 5. */
  function InitialCars(): map<Int64, CarValue>
  {
    map[1 := CarValue(Some(1), Some("Mazda"), 2018, Some(BigDecimal(12000, 0))),
        2 := CarValue(Some(2), Some("VW"), 2021, Some(BigDecimal(15000, 0))),
        3 := CarValue(Some(3), Some("Ford"), 2022, Some(BigDecimal(14000, 0))),
        4 := CarValue(Some(4), Some("BMW"), 2023, Some(BigDecimal(35000, 0))),
        5 := CarValue(Some(5), Some("Opel"), 2024, Some(BigDecimal(21000, 0)))]
  }

  /** The seed satisfies the store invariant with the counter at 5, and holds five cars. */
  lemma InitialCarsValid()
    ensures IdsMatchKeys(InitialCars(), 5)
    ensures InitialCars().Keys == {1, 2, 3, 4, 5} && |InitialCars()| == 5
  {
    assert InitialCars().Keys == {1, 2, 3, 4, 5};
  }

  /**
   A listing that visits every key once, taking the car stored under it,
   holds each stored car once, identified by its own id.
   */
  lemma ListingComplete(storage: map<Int64, CarValue>, last: int, keys: seq<Int64>, cars: seq<CarValue>)
    requires IdsMatchKeys(storage, last)
    requires |keys| == |cars|
    requires forall i :: 0 <= i < |keys| ==> keys[i] in storage && cars[i] == storage[keys[i]]
    requires forall k :: k in storage ==> k in keys
    requires forall i, j :: 0 <= i < j < |keys| ==> keys[i] != keys[j]
    ensures forall i :: 0 <= i < |cars| ==>
              cars[i].id.Some? && cars[i].id.value in storage && storage[cars[i].id.value] == cars[i]
    ensures forall i, j :: 0 <= i < j < |cars| ==> cars[i].id != cars[j].id
    ensures forall k :: k in storage ==> exists i :: 0 <= i < |cars| && cars[i] == storage[k]
  {
  }

  class CarRepositoryMap {
    var storage: map<Int64, CarValue>
    var currentId: Int64

    ghost predicate Valid()
      reads this
    {
      0 <= currentId && IdsMatchKeys(storage, currentId)
    }

    /** `new CarRepositoryMap()`: an empty store seeded with the five initial cars. */
    constructor ()
      ensures Valid()
      ensures storage == InitialCars() && currentId == 5
    {
      storage := map[];
      currentId := 0;
      new;
      InitStorage();
    }

    /** `initStorage()`: saves the five initial cars into the empty store. */
    method InitStorage()
      requires Valid() && storage == map[] && currentId == 0
      modifies this
      ensures Valid()
      ensures storage == InitialCars() && currentId == 5
    {
      var mazda := new Car.Unsaved(Some("Mazda"), 2018, Some(BigDecimal(12000, 0)));
      var _ := Save(mazda);
      assert storage == map[1 := InitialCars()[1]];
      var vw := new Car.Unsaved(Some("VW"), 2021, Some(BigDecimal(15000, 0)));
      var _ := Save(vw);
      assert storage == map[1 := InitialCars()[1], 2 := InitialCars()[2]];
      var ford := new Car.Unsaved(Some("Ford"), 2022, Some(BigDecimal(14000, 0)));
      var _ := Save(ford);
      assert storage == map[1 := InitialCars()[1], 2 := InitialCars()[2], 3 := InitialCars()[3]];
      var bmw := new Car.Unsaved(Some("BMW"), 2023, Some(BigDecimal(35000, 0)));
      var _ := Save(bmw);
      assert storage == map[1 := InitialCars()[1], 2 := InitialCars()[2], 3 := InitialCars()[3], 4 := InitialCars()[4]];
      var opel := new Car.Unsaved(Some("Opel"), 2024, Some(BigDecimal(21000, 0)));
      var _ := Save(opel);
    }

    /**
     `getAll()`: the stored cars, one per key, in an order the map chooses
     (here: any order, since the key is picked nondeterministically).
     */
    method GetAll() returns (cars: seq<CarValue>)
      requires Valid()
      ensures |cars| == |storage|
      ensures forall i :: 0 <= i < |cars| ==>
                cars[i].id.Some? && cars[i].id.value in storage && storage[cars[i].id.value] == cars[i]
      ensures forall i, j :: 0 <= i < j < |cars| ==> cars[i].id != cars[j].id
      ensures forall k :: k in storage ==> exists i :: 0 <= i < |cars| && cars[i] == storage[k]
    {
      cars := [];
      var rest := storage.Keys;
      ghost var keys: seq<Int64> := [];
      while rest != {}
        invariant rest <= storage.Keys
        invariant |keys| == |cars|
        invariant forall i :: 0 <= i < |keys| ==> keys[i] in storage && keys[i] !in rest && cars[i] == storage[keys[i]]
        invariant forall k :: k in storage && k !in rest ==> k in keys
        invariant forall i, j :: 0 <= i < j < |keys| ==> keys[i] != keys[j]
        invariant |cars| + |rest| == |storage|
        decreases rest
      {
        var k :| k in rest;
        cars := cars + [storage[k]];
        keys := keys + [k];
        rest := rest - {k};
      }
      ListingComplete(storage, currentId, keys, cars);
    }

    /**
     `save(car)`: gives the car the next id, whatever id it carried, and stores
     it under that id. The id is new to the store.
     */
    method Save(car: Car) returns (saved: Car)
      requires Valid() && currentId < MAX_LONG
      modifies this, car`id
      ensures Valid()
      ensures saved == car
      ensures currentId == old(currentId) + 1 && currentId !in old(storage)
      ensures car.Value() == old(car.Value()).(id := Some(currentId))
      ensures storage == old(storage)[currentId := car.Value()]
    {
      currentId := currentId + 1;
      car.SetId(Some(currentId));
      storage := storage[car.id.value := car.Value()];
      saved := car;
    }

    /** `getById(id)`: the car stored under `id`, or `null`. */
    method GetById(id: Int64) returns (r: Option<CarValue>)
      requires Valid()
      ensures r.Some? <==> id in storage
      ensures r.Some? ==> r.value == storage[id] && r.value.id == Some(id)
    {
      r := if id in storage then Some(storage[id]) else None;
    }

    /**
     `update(car)`: looks up the stored car by `car`'s id and overwrites its
     price only; brand, year and id stay as stored. An absent or null id
     gives `null` and leaves the store as it was.
     */
    method Update(car: Car) returns (r: Option<CarValue>)
      requires Valid()
      modifies this`storage
      ensures Valid()
      ensures (car.id.None? || car.id.value !in old(storage)) ==> r == None && storage == old(storage)
      ensures car.id.Some? && car.id.value in old(storage) ==>
                r == Some(old(storage)[car.id.value].(price := car.price)) &&
                storage == old(storage)[car.id.value := r.value]
    {
      var id := car.id;
      var newPrice := car.price;
      if id.None? || id.value !in storage {
        return None;
      }
      var updated := storage[id.value].(price := newPrice);
      storage := storage[id.value := updated];
      r := Some(updated);
    }

    /** `delete(id)`: removes the entry for `id` and returns what was stored, or `null`. */
    method Delete(id: Int64) returns (r: Option<CarValue>)
      requires Valid()
      modifies this`storage
      ensures Valid()
      ensures r == (if id in old(storage) then Some(old(storage)[id]) else None)
      ensures storage == old(storage) - {id}
    {
      r := if id in storage then Some(storage[id]) else None;
      storage := storage - {id};
    }
  }
}
