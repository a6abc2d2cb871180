/**
 * The records of the elevation tool and its drawing scale: a wall is
 * measured in feet, a fixture in inches, and the drawing shows half an
 * inch of paper for every foot of wall ("1/2 inch = 1 foot").
 */
module Types {
  import opened Wrappers

  /** An instant read from the clock (`new Date()`); only ever copied. */
  type Timestamp = nat

  datatype Client = Client(
    id: string,
    name: string,
    email: Option<string>,
    phone: Option<string>,
    createdAt: Timestamp,
    updatedAt: Timestamp)

  datatype Room = Room(
    id: string,
    name: string,
    description: Option<string>,
    clientId: string,
    createdAt: Timestamp,
    updatedAt: Timestamp)

  /** A wall, `widthFeet` wide and `heightFeet` tall. */
  datatype Wall = Wall(
    id: string,
    name: string,
    widthFeet: real,
    heightFeet: real,
    roomId: string,
    createdAt: Timestamp,
    updatedAt: Timestamp)

  /**
   * A fixture on a wall. `kind` is the free-form type tag ("sink", "mirror", ...).
   * `positionX` is the distance of its left edge from the wall's left edge and
   * `positionY` the distance of its bottom edge from the floor, both in inches.
   */
  datatype Fixture = Fixture(
    id: string,
    kind: string,
    name: string,
    widthInches: real,
    heightInches: real,
    positionX: real,
    positionY: real,
    productUrl: Option<string>,
    notes: Option<string>,
    wallId: string,
    createdAt: Timestamp,
    updatedAt: Timestamp)

  /** A wall's own fields together with the fixtures placed on it. */
  datatype WallWithFixtures = WallWithFixtures(
    id: string,
    name: string,
    widthFeet: real,
    heightFeet: real,
    roomId: string,
    createdAt: Timestamp,
    updatedAt: Timestamp,
    fixtures: seq<Fixture>)

  /** `{ ...wall, fixtures }`. */
  function WithFixtures(w: Wall, fixtures: seq<Fixture>): WallWithFixtures {
    WallWithFixtures(w.id, w.name, w.widthFeet, w.heightFeet, w.roomId, w.createdAt, w.updatedAt, fixtures)
  }

  /** Drawing inches per real foot: the architectural scale 1/2" = 1'-0". */
  const ScaleInchesPerFoot: real := 0.5

  /** Length on the drawing, in inches, of `feet` feet of wall. */
  function FeetToDrawingInches(feet: real): real {
    feet * ScaleInchesPerFoot
  }

  /** Length on the drawing, in inches, of `inches` real inches (a twelfth of a foot each). */
  function FixtureInchesToDrawingInches(inches: real): real {
    inches * ScaleInchesPerFoot / 12.0
  }

  /** Twelve real inches and one real foot take the same length on the drawing. */
  lemma InchesAndFeetAgree(feet: real)
    ensures FixtureInchesToDrawingInches(12.0 * feet) == FeetToDrawingInches(feet)
  {
  }

  /** Both conversions send 0 to 0, are additive and strictly increasing. */
  lemma ConversionsAreLinear(a: real, b: real)
    ensures FeetToDrawingInches(0.0) == 0.0 && FixtureInchesToDrawingInches(0.0) == 0.0
    ensures FeetToDrawingInches(a + b) == FeetToDrawingInches(a) + FeetToDrawingInches(b)
    ensures FixtureInchesToDrawingInches(a + b) == FixtureInchesToDrawingInches(a) + FixtureInchesToDrawingInches(b)
    ensures a < b ==> FeetToDrawingInches(a) < FeetToDrawingInches(b)
    ensures a < b ==> FixtureInchesToDrawingInches(a) < FixtureInchesToDrawingInches(b)
  {
  }

  /** An eight-foot wall is four inches long on the drawing, as the "1/2" = 1'-0"" caption says. */
  lemma EightFeetIsFourDrawingInches()
    ensures FeetToDrawingInches(8.0) == 4.0
    ensures FixtureInchesToDrawingInches(96.0) == 4.0
  {
  }
}
