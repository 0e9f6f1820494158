/**
 Properties of the map store that span several calls, stated as client
 methods that call the store and promise what the callers may rely on.
 */
module RepositoryProperties {
  import opened JavaLang
  import opened Model
  import opened Repository

  /** A saved car can be read back under the id it was given, and nothing else moved. */
  method SaveThenGetById(repo: CarRepositoryMap, car: Car) returns (saved: Car, found: Option<CarValue>)
    requires repo.Valid() && repo.currentId < MAX_LONG
    modifies repo, car`id
    ensures repo.Valid()
    ensures saved.id.Some? && saved.id.value !in old(repo.storage)
    ensures found == Some(saved.Value())
    ensures forall k :: k in old(repo.storage) ==> k in repo.storage && repo.storage[k] == old(repo.storage)[k]
  {
    saved := repo.Save(car);
    found := repo.GetById(saved.id.value);
  }

  /** After `delete(id)` the id is not found any more, whether or not it was there. */
  method DeleteThenGetById(repo: CarRepositoryMap, id: Int64) returns (deleted: Option<CarValue>, found: Option<CarValue>)
    requires repo.Valid()
    modifies repo
    ensures repo.Valid()
    ensures deleted.Some? <==> id in old(repo.storage)
    ensures found == None
  {
    deleted := repo.Delete(id);
    found := repo.GetById(id);
  }

  /** An id that is not stored is reported missing by both `getById` and `delete`, and nothing changes. */
  method UnknownIdNotFound(repo: CarRepositoryMap, id: Int64) returns (found: Option<CarValue>, deleted: Option<CarValue>)
    requires repo.Valid() && id !in repo.storage
    modifies repo
    ensures found == None && deleted == None
    ensures repo.storage == old(repo.storage) && repo.currentId == old(repo.currentId)
  {
    found := repo.GetById(id);
    deleted := repo.Delete(id);
  }

  /** Deleting a stored car and saving another never hands the deleted id out again. */
  method DeletedIdNotReused(repo: CarRepositoryMap, id: Int64, car: Car) returns (saved: Car)
    requires repo.Valid() && repo.currentId < MAX_LONG && id in repo.storage
    modifies repo, car`id
    ensures repo.Valid()
    ensures saved.id.Some? && saved.id.value != id
    ensures id !in repo.storage
  {
    var _ := repo.Delete(id);
    saved := repo.Save(car);
  }

  /** A fresh store lists five cars, finds the Mazda under id 1 and nothing under id 6. */
  method SeededStore() returns (all: seq<CarValue>, first: Option<CarValue>, sixth: Option<CarValue>)
    ensures |all| == 5
    ensures first == Some(CarValue(Some(1), Some("Mazda"), 2018, Some(BigDecimal(12000, 0))))
    ensures sixth == None
  {
    var repo := new CarRepositoryMap();
    InitialCarsValid();
    all := repo.GetAll();
    first := repo.GetById(1);
    sixth := repo.GetById(6);
  }
}
