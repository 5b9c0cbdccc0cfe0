/** Builder + Director: builders that fill in the fields of a car one by one, and a
    director that runs them in a fixed order (Contents.swift, lines 196-318).

    The `CarBuilder` protocol has two implementations, `BmwBuilder` and
    `PlimuthBuilder`, which differ only in the constants they write; here they are
    one class whose `make` selects the constants. */
module Builder {
  import opened Optional

  /** `Car`: every field starts unset (`nil`). */
  class Car {
    var title: Option<string>
    var engineVolume: Option<real>
    var carType: Option<string>
    var maxLifting: Option<int>
    var color: Option<string>

    constructor ()
      ensures title == None && engineVolume == None && carType == None
      ensures maxLifting == None && color == None
    {
      title, engineVolume, carType, maxLifting, color := None, None, None, None, None;
    }
  }

  /** Which of the two builders. */
  datatype Make = Bmw | Plimuth

  function TitleOf(make: Make): string
  {
    match make
    case Bmw => "BMW"
    case Plimuth => "Plimuth"
  }

  function ColorOf(make: Make): string
  {
    match make
    case Bmw => "Black"
    case Plimuth => "Red"
  }

  function LiftingOf(make: Make): int
  {
    match make
    case Bmw => 700
    case Plimuth => 480
  }

  /** Both builders write the same type and engine volume. */
  const CarType: string := "Lighweight"
  const EngineVolume: real := 2.5

  /** Every field of `car` holds the constant that the builder for `make` writes. */
  ghost predicate Complete(car: Car, make: Make)
    reads car
  {
    && car.title == Some(TitleOf(make))
    && car.engineVolume == Some(EngineVolume)
    && car.carType == Some(CarType)
    && car.maxLifting == Some(LiftingOf(make))
    && car.color == Some(ColorOf(make))
  }

  /** `BmwBuilder` / `PlimuthBuilder`: a builder holding the car it is working on. */
  class CarBuilder {
    const make: Make
    var car: Car

    constructor (make: Make)
      ensures this.make == make && fresh(car)
      ensures car.title == None && car.engineVolume == None && car.carType == None
      ensures car.maxLifting == None && car.color == None
    {
      this.make := make;
      car := new Car();
    }

    /** `reset`: starts a new, empty car; the previous one is no longer the builder's. */
    method Reset()
      modifies this
      ensures fresh(car)
      ensures car.title == None && car.engineVolume == None && car.carType == None
      ensures car.maxLifting == None && car.color == None
    {
      car := new Car();
    }

    method SetTitle()
      modifies car`title
      ensures car.title == Some(TitleOf(make))
    {
      car.title := Some(TitleOf(make));
    }

    method SetEngineVolume()
      modifies car`engineVolume
      ensures car.engineVolume == Some(EngineVolume)
    {
      car.engineVolume := Some(EngineVolume);
    }

    method SetType()
      modifies car`carType
      ensures car.carType == Some(CarType)
    {
      car.carType := Some(CarType);
    }

    method SetLifting()
      modifies car`maxLifting
      ensures car.maxLifting == Some(LiftingOf(make))
    {
      car.maxLifting := Some(LiftingOf(make));
    }

    method SetColor()
      modifies car`color
      ensures car.color == Some(ColorOf(make))
    {
      car.color := Some(ColorOf(make));
    }

    /** `getObject`: the builder's current car itself, not a copy. */
    method GetObject() returns (result: Car)
      ensures result == car
    {
      result := car;
    }
  }

  /** `Director`: runs the current builder through every step. */
  class Director {
    var builder: CarBuilder

    constructor (builder: CarBuilder)
      ensures this.builder == builder
    {
      this.builder := builder;
    }

    method SetBuilder(builder: CarBuilder)
      modifies this
      ensures this.builder == builder
    {
      this.builder := builder;
    }

    /** `createCar`: a new car, fully populated with the current builder's constants.
        Only the builder object itself is modified, so no car allocated before the
        call (in particular one returned by an earlier `createCar`) changes. */
    method CreateCar() returns (car: Car)
      modifies builder
      ensures fresh(car)
      ensures car == builder.car
      ensures Complete(car, builder.make)
    {
      builder.Reset();
      builder.SetTitle();
      builder.SetColor();
      builder.SetLifting();
      builder.SetType();
      builder.SetEngineVolume();
      car := builder.GetObject();
    }
  }

  /** Building twice with one director: two distinct cars, and the first is still
      complete after the second was built. */
  method BuildTwice(director: Director) returns (first: Car, second: Car)
    modifies director.builder
    ensures fresh(first) && fresh(second) && first != second
    ensures Complete(first, director.builder.make) && Complete(second, director.builder.make)
  {
    first := director.CreateCar();
    second := director.CreateCar();
  }

  /** The demonstration: a BMW, then a Plimuth after switching builders. */
  method BuilderDemo() returns (bmwTitle: Option<string>, plimuthTitle: Option<string>)
    ensures bmwTitle == Some("BMW") && plimuthTitle == Some("Plimuth")
  {
    var bmwBuilder := new CarBuilder(Bmw);
    var plimuthBuilder := new CarBuilder(Plimuth);
    var director := new Director(bmwBuilder);
    var bmw := director.CreateCar();
    director.SetBuilder(plimuthBuilder);
    var plimuth := director.CreateCar();
    bmwTitle, plimuthTitle := bmw.title, plimuth.title;
  }
}
