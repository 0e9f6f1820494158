/**
 The `Car` entity: an optional id, a brand, a year and a price. A `Car` object
 is mutable through its setters; `CarValue` is the snapshot of its four fields,
 which is what `equals` and `hashCode` look at and what the map store keeps.
 */
module Model {
  import opened JavaLang

  /** The four fields of a car at one moment. `None` stands for `null`. */
  datatype CarValue = CarValue(id: Option<Int64>, brand: Option<string>, year: Int32, price: Option<BigDecimal>)

  /** Null-safe hash of an optional field, as `Objects.hash` treats `null`. */
  function HashOrZero<T>(x: Option<T>, hash: T -> Int32): Int32
  {
    if x.None? then 0 else hash(x.value)
  }

  /** `Car.hashCode`: `Objects.hash(id, brand, year, price)`. */
  function CarHash(c: CarValue): (r: Int32)
    ensures r == ToInt(Poly31([HashOrZero(c.id, LongHash), HashOrZero(c.brand, StringHash),
                                c.year, HashOrZero(c.price, BigDecimalHash)], 1))
  {
    ObjectsHash([HashOrZero(c.id, LongHash), HashOrZero(c.brand, StringHash), c.year, HashOrZero(c.price, BigDecimalHash)])
  }

  class Car {
    var id: Option<Int64>
    var brand: Option<string>
    var year: Int32
    var price: Option<BigDecimal>

    /** The car's current field values. */
    function Value(): CarValue
      reads this
    {
      CarValue(id, brand, year, price)
    }

    /** `new Car()`: every reference field null, the year 0. */
    constructor ()
      ensures Value() == CarValue(None, None, 0, None)
    {
      id, brand, year, price := None, None, 0, None;
    }

    /** `new Car(brand, year, price)`: a car not yet stored, so without id. */
    constructor Unsaved(brand: Option<string>, year: Int32, price: Option<BigDecimal>)
      ensures Value() == CarValue(None, brand, year, price)
    {
      this.id := None;
      this.brand, this.year, this.price := brand, year, price;
    }

    /** `new Car(id, brand, year, price)`. */
    constructor WithId(id: Option<Int64>, brand: Option<string>, year: Int32, price: Option<BigDecimal>)
      ensures Value() == CarValue(id, brand, year, price)
    {
      this.id, this.brand, this.year, this.price := id, brand, year, price;
    }

    method SetBrand(brand: Option<string>)
      modifies this`brand
      ensures Value() == old(Value()).(brand := brand)
    {
      this.brand := brand;
    }

    method SetYear(year: Int32)
      modifies this`year
      ensures Value() == old(Value()).(year := year)
    {
      this.year := year;
    }

    method SetId(id: Option<Int64>)
      modifies this`id
      ensures Value() == old(Value()).(id := id)
    {
      this.id := id;
    }

    method SetPrice(price: Option<BigDecimal>)
      modifies this`price
      ensures Value() == old(Value()).(price := price)
    {
      this.price := price;
    }

    /**
     `equals(Object o)`: false for `null`, otherwise the four fields compared
     one by one (`Objects.equals` for the references), which is equality of
     the two snapshots.
     */
    predicate Equals(other: Car?)
      reads this, other
      ensures Equals(other) <==> other != null && Value() == other.Value()
    {
      other != null && year == other.year && id == other.id && brand == other.brand && price == other.price
    }

    /** `hashCode()`: the hash of the current fields. */
    function HashCode(): Int32
      reads this
    {
      CarHash(Value())
    }
  }

  lemma EqualsReflexive(a: Car)
    ensures a.Equals(a)
  {
  }

  lemma EqualsSymmetric(a: Car, b: Car)
    ensures a.Equals(b) <==> b.Equals(a)
  {
  }

  lemma EqualsTransitive(a: Car, b: Car, c: Car)
    requires a.Equals(b) && b.Equals(c)
    ensures a.Equals(c)
  {
  }

  /** The `hashCode` contract: cars that are `equals` have the same hash code. */
  lemma EqualCarsHashAlike(a: Car, b: Car)
    requires a.Equals(b)
    ensures a.HashCode() == b.HashCode()
  {
  }

  /** A car built by `new Car()` hashes to 31^4, since every element hash is 0. */
  lemma EmptyCarHash()
    ensures CarHash(CarValue(None, None, 0, None)) == 923521
  {
    var hs := [0, 0, 0, 0];
    assert hs[..3] == [0, 0, 0] && hs[..3][..2] == [0, 0] && hs[..3][..2][..1] == [0];
    assert Poly31([0], 1) == 31;
    assert Poly31([0, 0], 1) == 961;
    assert Poly31([0, 0, 0], 1) == 29791;
    assert Poly31(hs, 1) == 923521;
  }
}
