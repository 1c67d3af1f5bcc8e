/** The car controller: the listing filter, the required-field validation of
    a new car, and the guards in front of updating and deleting a car. */
module Cars {
  import opened Wrappers
  import opened Strings
  import opened Store

  // ---------------------------------------------------------------------
  // Listing
  // ---------------------------------------------------------------------

  /** The `where` object of the listing query: a brand to match, if any,
      and whether only available cars are listed. */
  datatype CarFilter = CarFilter(brand: Option<string>, availableOnly: bool)

  predicate Matches(filter: CarFilter, car: Car) {
    (filter.brand.None? || car.brand == filter.brand.value) && (!filter.availableOnly || car.isAvailable)
  }

  /** `getAllCars`' filter, built field by field from the query string. */
  method BuildCarFilter(brand: Option<string>, available: Option<string>) returns (filter: CarFilter)
    ensures filter.brand.Some? <==> Truthy(brand)
    ensures filter.availableOnly <==> available == Some("true")
    ensures forall car :: Matches(filter, car) <==>
      (!Truthy(brand) || car.brand == brand.value) && (available != Some("true") || car.isAvailable)
  {
    filter := CarFilter(None, false);
    if brand.Some? && brand.value != "" {
      filter := filter.(brand := brand);
    }
    if available == Some("true") {
      filter := filter.(availableOnly := true);
    }
  }

  /** The cars the listing returns. */
  /** The cars the listing returns. A filter that restricts nothing lists
      every car, unavailable ones included; asking for available cars never
      lists an unavailable one, and a brand filter lists only that brand. */
  function Listing(cars: map<string, Car>, filter: CarFilter): (ids: set<string>)
    ensures ids <= cars.Keys
    ensures filter == CarFilter(None, false) ==> ids == cars.Keys
    ensures filter.availableOnly ==> forall id :: id in ids ==> cars[id].isAvailable
    ensures filter.brand.Some? ==> forall id :: id in ids ==> cars[id].brand == filter.brand.value
    ensures forall id :: id in cars ==> (id in ids <==> Matches(filter, cars[id]))
  {
    set id | id in cars && Matches(filter, cars[id])
  }

  // ---------------------------------------------------------------------
  // Creating
  // ---------------------------------------------------------------------

  /** The body of a create request. */
  datatype CarInput = CarInput(
    name: Option<string>,
    brand: Option<string>,
    model: Option<string>,
    year: Option<int>,
    licensePlate: Option<string>,
    price: Option<int>,
    description: Option<string>)

  /** The required fields, in the order their errors are recorded. */
  datatype Field = NameField | BrandField | ModelField | YearField | LicensePlateField | PriceField {
    function Position(): (i: nat)
      ensures i < 6
    {
      match this
      case NameField => 0
      case BrandField => 1
      case ModelField => 2
      case YearField => 3
      case LicensePlateField => 4
      case PriceField => 5
    }
  }

  /** A required field that is absent or falsy; a year or price of 0 is
      missing too. */
  predicate Missing(input: CarInput, f: Field) {
    match f
    case NameField => !Truthy(input.name)
    case BrandField => !Truthy(input.brand)
    case ModelField => !Truthy(input.model)
    case YearField => !TruthyNumber(input.year)
    case LicensePlateField => !Truthy(input.licensePlate)
    case PriceField => !TruthyNumber(input.price)
  }

  /** Every required field is present and truthy. */
  predicate Complete(input: CarInput) {
    && Truthy(input.name) && Truthy(input.brand) && Truthy(input.model)
    && TruthyNumber(input.year) && Truthy(input.licensePlate) && TruthyNumber(input.price)
  }

  lemma CompleteMeansNothingMissing(input: CarInput)
    ensures Complete(input) <==> forall f: Field :: !Missing(input, f)
  {
    if !Complete(input) {
      var f :| f in [NameField, BrandField, ModelField, YearField, LicensePlateField, PriceField] && Missing(input, f);
    }
  }

  /** The required fields in the order they are checked. */
  const RequiredFields: seq<Field> := [NameField, BrandField, ModelField, YearField, LicensePlateField, PriceField]

  /** The missing ones among `fields`, in their order. */
  function MissingAmong(input: CarInput, fields: seq<Field>): seq<Field> {
    if |fields| == 0 then []
    else
      var f := fields[|fields| - 1];
      MissingAmong(input, fields[..|fields| - 1]) + if Missing(input, f) then [f] else []
  }

  /** Checking a list of fields records exactly its missing fields, in the
      list's order. */
  lemma {:induction false} MissingAmongSelects(input: CarInput, fields: seq<Field>)
    requires forall i, j :: 0 <= i < j < |fields| ==> fields[i].Position() < fields[j].Position()
    ensures forall f :: f in MissingAmong(input, fields) <==> f in fields && Missing(input, f)
    ensures forall i, j :: 0 <= i < j < |MissingAmong(input, fields)| ==>
      MissingAmong(input, fields)[i].Position() < MissingAmong(input, fields)[j].Position()
    ensures forall f :: f in MissingAmong(input, fields) ==> f.Position() <= fields[|fields| - 1].Position()
  {
    if |fields| > 0 {
      var init := fields[..|fields| - 1];
      var f := fields[|fields| - 1];
      MissingAmongSelects(input, init);
      assert forall g :: g in fields <==> g in init || g == f;
      if |init| > 0 {
        assert init[|init| - 1].Position() < f.Position();
      }
    }
  }

  /** The validation records an error for every missing field and only for
      those, in the order name, brand, model, year, licensePlate, price. */
  lemma RequiredFieldErrors(input: CarInput)
    ensures forall f :: f in MissingAmong(input, RequiredFields) <==> Missing(input, f)
    ensures forall i, j :: 0 <= i < j < |MissingAmong(input, RequiredFields)| ==>
      MissingAmong(input, RequiredFields)[i].Position() < MissingAmong(input, RequiredFields)[j].Position()
    ensures |MissingAmong(input, RequiredFields)| == 0 <==> Complete(input)
  {
    MissingAmongSelects(input, RequiredFields);
    assert forall f: Field :: f in RequiredFields by {
      forall f: Field ensures f in RequiredFields {
        assert RequiredFields[f.Position()] == f;
      }
    }
    CompleteMeansNothingMissing(input);
    if |MissingAmong(input, RequiredFields)| > 0 {
      assert MissingAmong(input, RequiredFields)[0] in MissingAmong(input, RequiredFields);
    }
  }

  /** The errors of one field check appended to those recorded so far. */
  function Record(errors: seq<Field>, missing: bool, f: Field): seq<Field> {
    if missing then errors + [f] else errors
  }

  /** The required fields' checks one after the other. */
  lemma MissingAmongRequiredFields(input: CarInput)
    ensures MissingAmong(input, RequiredFields) ==
      Record(Record(Record(Record(Record(Record([],
        Missing(input, NameField), NameField),
        Missing(input, BrandField), BrandField),
        Missing(input, ModelField), ModelField),
        Missing(input, YearField), YearField),
        Missing(input, LicensePlateField), LicensePlateField),
        Missing(input, PriceField), PriceField)
  {
    var e0: seq<Field> := [];
    assert MissingAmong(input, RequiredFields[..0]) == e0;
    var e1 := Record(e0, Missing(input, NameField), NameField);
    assert RequiredFields[..1][..0] == RequiredFields[..0];
    assert MissingAmong(input, RequiredFields[..1]) == e1;
    var e2 := Record(e1, Missing(input, BrandField), BrandField);
    assert RequiredFields[..2][..1] == RequiredFields[..1];
    assert MissingAmong(input, RequiredFields[..2]) == e2;
    var e3 := Record(e2, Missing(input, ModelField), ModelField);
    assert RequiredFields[..3][..2] == RequiredFields[..2];
    assert MissingAmong(input, RequiredFields[..3]) == e3;
    var e4 := Record(e3, Missing(input, YearField), YearField);
    assert RequiredFields[..4][..3] == RequiredFields[..3];
    assert MissingAmong(input, RequiredFields[..4]) == e4;
    var e5 := Record(e4, Missing(input, LicensePlateField), LicensePlateField);
    assert RequiredFields[..5][..4] == RequiredFields[..4];
    assert MissingAmong(input, RequiredFields[..5]) == e5;
    var e6 := Record(e5, Missing(input, PriceField), PriceField);
    assert RequiredFields[..6][..5] == RequiredFields[..5];
    assert MissingAmong(input, RequiredFields[..6]) == e6;
    assert RequiredFields[..6] == RequiredFields;
  }

  /** `createCar`'s validation: the errors object, built field by field. */
  method ValidateCarInput(input: CarInput) returns (errors: seq<Field>)
    ensures errors == MissingAmong(input, RequiredFields)
    ensures |errors| == 0 <==> Complete(input)
  {
    errors := [];
    errors := Record(errors, !(input.name.Some? && input.name.value != ""), NameField);
    errors := Record(errors, !(input.brand.Some? && input.brand.value != ""), BrandField);
    errors := Record(errors, !(input.model.Some? && input.model.value != ""), ModelField);
    errors := Record(errors, !(input.year.Some? && input.year.value != 0), YearField);
    errors := Record(errors, !(input.licensePlate.Some? && input.licensePlate.value != ""), LicensePlateField);
    errors := Record(errors, !(input.price.Some? && input.price.value != 0), PriceField);
    MissingAmongRequiredFields(input);
    RequiredFieldErrors(input);
  }

  /** Some car other than `except` has this license plate. */
  predicate PlateTaken(cars: map<string, Car>, plate: string, except: Option<string>) {
    exists id :: id in cars && Some(id) != except && cars[id].licensePlate == plate
  }

  /** Adding a car whose plate is new keeps the database consistent. */
  lemma AddCarKeepsConsistent(orders: map<string, Order>, cars: map<string, Car>, id: string, car: Car)
    requires Consistent(orders, cars)
    requires id !in cars && !PlateTaken(cars, car.licensePlate, None)
    ensures Consistent(orders, cars[id := car])
  {
  }

  /** `createCar`. The new car gets the id `newId`; a plate that is already
      registered violates the plate's unique constraint, which the database
      refuses. */
  method CreateCar(db: Database, caller: string, input: CarInput, newId: string) returns (r: Result<Car, Failure>)
    requires newId !in db.cars
    modifies db
    ensures db.orders == old(db.orders) && db.messages == old(db.messages) && db.users == old(db.users)
    ensures !Complete(input) ==> r == Failure(ValidationError)
    ensures Complete(input) && PlateTaken(old(db.cars), input.licensePlate.value, None) ==> r == Failure(ServerError)
    ensures r.Success? <==> Complete(input) && !PlateTaken(old(db.cars), input.licensePlate.value, None)
    ensures r.Success? ==>
      && r.value == Car(caller, input.name.value, input.brand.value, input.model.value, input.year.value,
                        input.licensePlate.value, input.price.value, input.description, None, true)
      && db.cars == old(db.cars)[newId := r.value]
    ensures r.Failure? ==> db.cars == old(db.cars)
    ensures old(db.Valid()) ==> db.Valid()
  {
    var errors := ValidateCarInput(input);
    if |errors| > 0 {
      return Failure(ValidationError);
    }
    var plate := input.licensePlate.value;
    if exists id :: id in db.cars && db.cars[id].licensePlate == plate {
      return Failure(ServerError);
    }
    var car := Car(caller, input.name.value, input.brand.value, input.model.value, input.year.value,
                   plate, input.price.value, input.description, None, true);
    if db.Valid() {
      AddCarKeepsConsistent(db.orders, db.cars, newId, car);
    }
    db.cars := db.cars[newId := car];
    r := Success(car);
  }

  // ---------------------------------------------------------------------
  // Updating
  // ---------------------------------------------------------------------

  /** The body of an update request; an absent field is left as it is. */
  datatype CarPatch = CarPatch(
    name: Option<string>,
    brand: Option<string>,
    model: Option<string>,
    year: Option<int>,
    licensePlate: Option<string>,
    price: Option<int>,
    imageUrl: Option<string>,
    description: Option<string>,
    isAvailable: Option<bool>)

  function Pick<T>(given: Option<T>, current: T): T {
    if given.Some? then given.value else current
  }

  /** The car after the update: every given field replaces the stored one,
      the owner never changes. */
  function Patched(car: Car, patch: CarPatch): (after: Car)
    ensures after.ownerId == car.ownerId
    ensures patch.name.Some? ==> after.name == patch.name.value
    ensures patch.name.None? ==> after.name == car.name
    ensures patch.brand.Some? ==> after.brand == patch.brand.value
    ensures patch.brand.None? ==> after.brand == car.brand
    ensures patch.model.Some? ==> after.model == patch.model.value
    ensures patch.model.None? ==> after.model == car.model
    ensures patch.year.Some? ==> after.year == patch.year.value
    ensures patch.year.None? ==> after.year == car.year
    ensures patch.licensePlate.Some? ==> after.licensePlate == patch.licensePlate.value
    ensures patch.licensePlate.None? ==> after.licensePlate == car.licensePlate
    ensures patch.price.Some? ==> after.price == patch.price.value
    ensures patch.price.None? ==> after.price == car.price
    ensures patch.isAvailable.Some? ==> after.isAvailable == patch.isAvailable.value
    ensures patch.isAvailable.None? ==> after.isAvailable == car.isAvailable
    ensures patch.description.Some? ==> after.description == patch.description
    ensures patch.description.None? ==> after.description == car.description
    ensures patch.imageUrl.Some? ==> after.imageUrl == patch.imageUrl
    ensures patch.imageUrl.None? ==> after.imageUrl == car.imageUrl
    ensures patch == CarPatch(None, None, None, None, None, None, None, None, None) ==> after == car
  {
    Car(car.ownerId,
        Pick(patch.name, car.name),
        Pick(patch.brand, car.brand),
        Pick(patch.model, car.model),
        Pick(patch.year, car.year),
        Pick(patch.licensePlate, car.licensePlate),
        Pick(patch.price, car.price),
        if patch.description.Some? then patch.description else car.description,
        if patch.imageUrl.Some? then patch.imageUrl else car.imageUrl,
        Pick(patch.isAvailable, car.isAvailable))
  }

  /** Rewriting a car keeps the database consistent when its new plate is
      not another car's. */
  lemma RewriteCarKeepsConsistent(orders: map<string, Order>, cars: map<string, Car>, id: string, car: Car)
    requires Consistent(orders, cars)
    requires id in cars && !PlateTaken(cars, car.licensePlate, Some(id))
    ensures Consistent(orders, cars[id := car])
  {
    var after := cars[id := car];
    forall a, b | a in after && b in after && a != b
      ensures after[a].licensePlate != after[b].licensePlate
    {
      if a == id {
        assert !(b in cars && Some(b) != Some(id) && cars[b].licensePlate == car.licensePlate);
      } else if b == id {
        assert !(a in cars && Some(a) != Some(id) && cars[a].licensePlate == car.licensePlate);
      }
    }
  }

  /** `updateCar`: the owner gate, then the plate check when the plate
      changes to a non-empty one, then the write; a plate that still
      collides (only an empty one can) violates the unique constraint. */
  method UpdateCar(db: Database, id: string, caller: string, patch: CarPatch) returns (r: Result<Car, Failure>)
    modifies db
    ensures db.orders == old(db.orders) && db.messages == old(db.messages) && db.users == old(db.users)
    ensures id !in old(db.cars) ==> r == Failure(NotFound)
    ensures id in old(db.cars) && old(db.cars)[id].ownerId != caller ==> r == Failure(Forbidden)
    ensures id in old(db.cars) && old(db.cars)[id].ownerId == caller ==>
      var car := old(db.cars)[id];
      if Truthy(patch.licensePlate) && patch.licensePlate.value != car.licensePlate
         && PlateTaken(old(db.cars), patch.licensePlate.value, None) then
        r == Failure(ValidationError)
      else if PlateTaken(old(db.cars), Patched(car, patch).licensePlate, Some(id)) then
        r == Failure(ServerError)
      else
        r == Success(Patched(car, patch)) && db.cars == old(db.cars)[id := Patched(car, patch)]
    ensures r.Failure? ==> db.cars == old(db.cars)
    ensures old(db.Valid()) ==> db.Valid()
  {
    if id !in db.cars {
      return Failure(NotFound);
    }
    var car := db.cars[id];
    if car.ownerId != caller {
      return Failure(Forbidden);
    }
    if patch.licensePlate.Some? && patch.licensePlate.value != "" && patch.licensePlate.value != car.licensePlate {
      var plate := patch.licensePlate.value;
      if exists other :: other in db.cars && db.cars[other].licensePlate == plate {
        return Failure(ValidationError);
      }
    }
    var updated := Patched(car, patch);
    if exists other :: other in db.cars && other != id && db.cars[other].licensePlate == updated.licensePlate {
      return Failure(ServerError);
    }
    if db.Valid() {
      RewriteCarKeepsConsistent(db.orders, db.cars, id, updated);
    }
    db.cars := db.cars[id := updated];
    r := Success(updated);
  }

  /** Changing to a non-empty plate never reaches the unique constraint:
      the plate check has already answered. */
  lemma ChangedPlateIsCheckedFirst(cars: map<string, Car>, id: string, patch: CarPatch)
    requires id in cars && UniquePlates(cars)
    requires Truthy(patch.licensePlate) && patch.licensePlate.value != cars[id].licensePlate
    requires PlateTaken(cars, Patched(cars[id], patch).licensePlate, Some(id))
    ensures PlateTaken(cars, patch.licensePlate.value, None)
  {
  }

  /** Keeping the plate, or changing nothing but other fields, never
      collides in a consistent database. */
  lemma SamePlateNeverCollides(cars: map<string, Car>, id: string, patch: CarPatch)
    requires id in cars && UniquePlates(cars)
    requires patch.licensePlate.None? || patch.licensePlate == Some(cars[id].licensePlate)
    ensures !PlateTaken(cars, Patched(cars[id], patch).licensePlate, Some(id))
  {
  }

  /** A car whose plate is "" blocks every other car from clearing its
      plate: the empty plate skips the check and meets the constraint. */
  lemma EmptyPlateSkipsTheCheck(cars: map<string, Car>, id: string, other: string, patch: CarPatch)
    requires id in cars && other in cars && id != other && cars[other].licensePlate == ""
    requires patch.licensePlate == Some("")
    ensures !Truthy(patch.licensePlate)
    ensures PlateTaken(cars, Patched(cars[id], patch).licensePlate, Some(id))
  {
  }

  // ---------------------------------------------------------------------
  // Deleting
  // ---------------------------------------------------------------------

  /** Some order holding the car is still active. */
  predicate HasActiveOrders(orders: map<string, Order>, carId: string) {
    exists o :: o in orders && orders[o].carId == carId && orders[o].status.IsActive()
  }

  /** Removing a car no active order holds keeps the database consistent. */
  lemma RemoveCarKeepsConsistent(orders: map<string, Order>, cars: map<string, Car>, id: string)
    requires Consistent(orders, cars)
    requires !HasActiveOrders(orders, id)
    ensures Consistent(orders, cars - {id})
  {
    forall o | o in orders && orders[o].status.IsActive()
      ensures orders[o].carId in cars - {id}
    {
      assert orders[o].carId != id;
    }
  }

  /** `deleteCar`. */
  method DeleteCar(db: Database, id: string, caller: string) returns (r: Result<(), Failure>)
    modifies db
    ensures db.orders == old(db.orders) && db.messages == old(db.messages) && db.users == old(db.users)
    ensures id !in old(db.cars) ==> r == Failure(NotFound)
    ensures id in old(db.cars) && old(db.cars)[id].ownerId != caller ==> r == Failure(Forbidden)
    ensures id in old(db.cars) && old(db.cars)[id].ownerId == caller && HasActiveOrders(db.orders, id) ==>
      r == Failure(ValidationError)
    ensures r.Success? <==>
      (id in old(db.cars) && old(db.cars)[id].ownerId == caller && !HasActiveOrders(db.orders, id))
    ensures r.Success? ==> db.cars == old(db.cars) - {id}
    ensures r.Failure? ==> db.cars == old(db.cars)
    ensures old(db.Valid()) ==> db.Valid()
  {
    if id !in db.cars {
      return Failure(NotFound);
    }
    if db.cars[id].ownerId != caller {
      return Failure(Forbidden);
    }
    var activeOrders := set o | o in db.orders && db.orders[o].carId == id && db.orders[o].status.IsActive();
    if activeOrders != {} {
      return Failure(ValidationError);
    }
    assert !HasActiveOrders(db.orders, id) by {
      forall o | o in db.orders && db.orders[o].carId == id
        ensures !db.orders[o].status.IsActive()
      {
        assert db.orders[o].status.IsActive() ==> o in activeOrders;
      }
    }
    if db.Valid() {
      RemoveCarKeepsConsistent(db.orders, db.cars, id);
    }
    db.cars := db.cars - {id};
    r := Success(());
  }
}
