/** Visitor: attractions that react to a visit by someone of a given (possibly
    unknown) age, and a client that visits them (Contents.swift, lines 531-607). */
module Visitor {
  import opened Optional

  /** The three implementations of the `Attraction` protocol with their fields. */
  datatype Attraction =
    | Sauna(temp: int, kind: string)
    | SwimmingPool
    | WaterSlide(minAge: int, height: int)

  /** What `visitResult(age:)` prints. */
  datatype VisitEvent =
    | Sitting(kind: string, temp: int) // "Sitting in <type> sauna with temp <temp>"
    | Swimming                         // "Swimming..."
    | Sliding                          // "Sliding..."
    | AgeNotAllowed                    // "Your age is not allowed"

  /** The water slide admits a visitor whose age is known and at least `minAge`. */
  predicate Admits(minAge: int, age: Option<int>)
  {
    match age
    case None => false
    case Some(a) => a >= minAge
  }

  /** `visitResult(age:)` of each attraction. */
  function VisitResult(attraction: Attraction, age: Option<int>): (event: VisitEvent)
    ensures attraction.WaterSlide? ==>
              (event == Sliding <==> age.Some? && age.value >= attraction.minAge)
    ensures attraction.WaterSlide? ==> event == Sliding || event == AgeNotAllowed
    ensures attraction.Sauna? ==> event == Sitting(attraction.kind, attraction.temp)
    ensures attraction.SwimmingPool? ==> event == Swimming
  {
    match attraction
    case Sauna(temp, kind) => Sitting(kind, temp)
    case SwimmingPool => Swimming
    case WaterSlide(minAge, _) => if Admits(minAge, age) then Sliding else AgeNotAllowed
  }

  /** Admission to the slide is monotone in age: whoever is admitted, anyone older is too. */
  lemma SlideAdmissionMonotone(minAge: int, height: int, younger: int, older: int)
    requires younger <= older
    requires VisitResult(WaterSlide(minAge, height), Some(younger)) == Sliding
    ensures VisitResult(WaterSlide(minAge, height), Some(older)) == Sliding
  {
  }

  /** Only the water slide looks at the age. */
  lemma OnlySlideReadsAge(attraction: Attraction, age: Option<int>, other: Option<int>)
    requires !attraction.WaterSlide?
    ensures VisitResult(attraction, age) == VisitResult(attraction, other)
  {
  }

  /** `AttractionClient`: a visitor of known age. */
  datatype AttractionClient = AttractionClient(age: int)
  {
    /** `visitSauna`, `visitSwimmingPool` and `visitWaterSlide`: each passes the
        client's age to the attraction. */
    function Visit(attraction: Attraction): (event: VisitEvent)
      ensures attraction.WaterSlide? ==> (event == Sliding <==> age >= attraction.minAge)
    {
      VisitResult(attraction, Some(age))
    }
  }

  /** The demonstration: a 13-year-old visits the sauna and the slide for 12-year-olds. */
  lemma VisitorDemo()
    ensures AttractionClient(13).Visit(Sauna(90, "Fineland")) == Sitting("Fineland", 90)
    ensures AttractionClient(13).Visit(WaterSlide(12, 145)) == Sliding
  {
  }

  /** An example beyond the demonstration: the same slide turns away an 11-year-old
      and a visitor of unknown age. */
  lemma SlideRefusalExample()
    ensures AttractionClient(11).Visit(WaterSlide(12, 145)) == AgeNotAllowed
    ensures VisitResult(WaterSlide(12, 145), None) == AgeNotAllowed
  {
  }
}
