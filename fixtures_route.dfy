/**
 * `POST /api/fixtures`: the required-field check on the JSON body, then one
 * `createFixture` with the numeric fields passed through `parseFloat`.
 * Numeric fields are JSON numbers here, on which `parseFloat` gives the
 * number back; `None` is a field missing from the body.
 */
module FixturesRoute {
  import opened Wrappers
  import opened Types
  import opened OrderedMaps
  import JsText
  import Db

  datatype FixtureRequest = FixtureRequest(
    kind: Option<string>,
    name: Option<string>,
    widthInches: Option<real>,
    heightInches: Option<real>,
    positionX: Option<real>,
    positionY: Option<real>,
    wallId: Option<string>,
    productUrl: Option<string>,
    notes: Option<string>)

  /** The created fixture with status 201, or `{ error }` with status 400. */
  datatype Response =
    | Created(fixture: Fixture)
    | Failure(error: string)

  /** A number is truthy unless it is missing or zero. */
  predicate TruthyNumber(x: Option<real>) {
    x.Some? && x.value != 0.0
  }

  /**
   * The required-field check: type, name, width, height and wall must be
   * truthy, the two positions only present. On success, the record handed
   * to `createFixture`.
   */
  function Validate(request: FixtureRequest): (r: Option<Db.FixtureData>)
    ensures r.Some? <==>
              JsText.Truthy(request.kind) && JsText.Truthy(request.name)
              && TruthyNumber(request.widthInches) && TruthyNumber(request.heightInches)
              && request.positionX.Some? && request.positionY.Some? && JsText.Truthy(request.wallId)
    ensures r.Some? ==>
              r.value == Db.FixtureData(request.kind.value, request.name.value, request.widthInches.value, request.heightInches.value,
                                        request.positionX.value, request.positionY.value, request.wallId.value,
                                        request.productUrl, request.notes)
  {
    if !JsText.Truthy(request.kind) || !JsText.Truthy(request.name) || !TruthyNumber(request.widthInches)
       || !TruthyNumber(request.heightInches) || request.positionX.None? || request.positionY.None? || !JsText.Truthy(request.wallId)
    then None
    else Some(Db.FixtureData(request.kind.value, request.name.value, request.widthInches.value, request.heightInches.value,
                             request.positionX.value, request.positionY.value, request.wallId.value,
                             request.productUrl, request.notes))
  }

  /**
   * `POST /api/fixtures`: 400 and no change when a required field is
   * missing, else 201 with the fixture stored under the next uuid. Whether
   * the wall exists is not looked at.
   */
  method Post(db: Db.Database, request: FixtureRequest, now: Timestamp) returns (status: nat, response: Response)
    requires db.Valid()
    modifies db`fixtures, db`uuidsDrawn
    ensures db.Valid()
    ensures Validate(request).None? ==>
              status == 400 && response == Failure("Missing required fields")
              && db.fixtures == old(db.fixtures) && db.uuidsDrawn == old(db.uuidsDrawn)
    ensures Validate(request).Some? ==>
              var f := Db.NewFixture(Validate(request).value, Db.ChosenId(None, db.uuid, old(db.uuidsDrawn)), now);
              status == 201 && response == Created(f)
              && db.fixtures == Set(old(db.fixtures), f.id, f) && db.GetFixture(f.id) == Some(f)
  {
    var data := Validate(request);
    if data.None? {
      return 400, Failure("Missing required fields");
    }
    var fixture := db.CreateFixture(data.value, None, now);
    return 201, Created(fixture);
  }

  /** A width or height of 0 is refused, because 0 is falsy. */
  lemma ZeroSizeRejected(request: FixtureRequest)
    requires request.widthInches == Some(0.0) || request.heightInches == Some(0.0)
    ensures Validate(request).None?
  {
  }

  /**
   * A position of 0 is accepted, because only a missing position is
   * refused: setting either position of a valid request to 0 keeps it
   * valid and stores 0.
   */
  lemma ZeroPositionAccepted(request: FixtureRequest)
    requires Validate(request).Some?
    ensures Validate(request.(positionX := Some(0.0))).Some?
    ensures Validate(request.(positionY := Some(0.0))).Some?
    ensures Validate(request.(positionX := Some(0.0))).value.positionX == 0.0
    ensures Validate(request.(positionY := Some(0.0))).value.positionY == 0.0
  {
  }
}
