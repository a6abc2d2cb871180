/**
 * The AI agent endpoint: the request checks of `POST`, the keyword-based
 * fallback parser used when no API key is configured, and the step that
 * stores the fixtures a language model proposed. The model's answer itself
 * is an input (`AiResponse`); number formatting in messages is the
 * parameter `num`.
 */
module AiAgent {
  import opened Wrappers
  import opened Types
  import opened OrderedMaps
  import JsText
  import InstructionMatch
  import Db

  /** A JSON reply: an HTTP status and the body. */
  datatype Reply = Reply(status: nat, body: Body)

  /** `{ error }`, or `{ action, fixtures?, message }`. */
  datatype Body =
    | Failure(error: string)
    | Agent(action: string, fixtures: Option<seq<Fixture>>, message: string)

  // ---------------------------------------------------------------------
  // The fallback parser, stated as decision tables.
  // ---------------------------------------------------------------------

  /** A fixture type the parser recognises by a keyword, and the name it gives it. */
  datatype KindEntry = KindEntry(keyword: string, name: string)

  /** The recognised types, in the order the parser looks for them. */
  const KindTable: seq<KindEntry> := [
    KindEntry("sink", "Sink"),
    KindEntry("mirror", "Mirror"),
    KindEntry("light", "Light Fixture"),
    KindEntry("outlet", "Outlet"),
    KindEntry("window", "Window")
  ]

  /** What an instruction mentioning none of the keywords adds. */
  const Unknown := KindEntry("unknown", "New Fixture")

  /** The first entry of `KindTable` from index `i` on whose keyword occurs in `lower`. */
  function FirstMentioned(lower: string, i: nat): KindEntry
    decreases |KindTable| - i
  {
    if i >= |KindTable| then Unknown
    else if JsText.Contains(lower, KindTable[i].keyword) then KindTable[i]
    else FirstMentioned(lower, i + 1)
  }

  /** The type and name the parser gives an instruction, from its lower-cased text. */
  function DetectKind(lower: string): KindEntry {
    FirstMentioned(lower, 0)
  }

  /** `DetectKind` spelled out as the chain of tests it amounts to. */
  lemma DetectKindChain(lower: string)
    ensures DetectKind(lower) ==
              if JsText.Contains(lower, "sink") then KindEntry("sink", "Sink")
              else if JsText.Contains(lower, "mirror") then KindEntry("mirror", "Mirror")
              else if JsText.Contains(lower, "light") then KindEntry("light", "Light Fixture")
              else if JsText.Contains(lower, "outlet") then KindEntry("outlet", "Outlet")
              else if JsText.Contains(lower, "window") then KindEntry("window", "Window")
              else Unknown
  {
    assert FirstMentioned(lower, 5) == Unknown;
    assert FirstMentioned(lower, 4) == if JsText.Contains(lower, "window") then KindTable[4] else Unknown;
    assert FirstMentioned(lower, 3) == if JsText.Contains(lower, "outlet") then KindTable[3] else FirstMentioned(lower, 4);
    assert FirstMentioned(lower, 2) == if JsText.Contains(lower, "light") then KindTable[2] else FirstMentioned(lower, 3);
    assert FirstMentioned(lower, 1) == if JsText.Contains(lower, "mirror") then KindTable[1] else FirstMentioned(lower, 2);
    assert FirstMentioned(lower, 0) == if JsText.Contains(lower, "sink") then KindTable[0] else FirstMentioned(lower, 1);
  }

  /** The instruction asks for something to be added. */
  predicate IsAddInstruction(lower: string) {
    JsText.Contains(lower, "add") || JsText.Contains(lower, "place") || JsText.Contains(lower, "put")
  }

  /** Width and height in inches used when the instruction gives none. */
  function DefaultSize(kind: string): (real, real) {
    var sizes := map["sink" := (24.0, 8.0), "mirror" := (30.0, 36.0), "light" := (24.0, 6.0),
                     "outlet" := (4.0, 6.0), "window" := (36.0, 48.0)];
    if kind in sizes then sizes[kind] else (24.0, 24.0)
  }

  /** `DefaultSize` spelled out as a chain of tests. */
  lemma DefaultSizeChain(kind: string)
    ensures DefaultSize(kind) ==
              if kind == "sink" then (24.0, 8.0) else if kind == "mirror" then (30.0, 36.0)
              else if kind == "light" then (24.0, 6.0) else if kind == "outlet" then (4.0, 6.0)
              else if kind == "window" then (36.0, 48.0) else (24.0, 24.0)
  {
  }

  /** Height of the bottom edge above the floor used when the instruction gives no position. */
  function DefaultElevation(kind: string): real {
    var elevations := map["outlet" := 15.0, "sink" := 32.0, "mirror" := 48.0, "light" := 78.0, "window" := 42.0];
    if kind in elevations then elevations[kind] else 36.0
  }

  /** `DefaultElevation` spelled out as a chain of tests. */
  lemma DefaultElevationChain(kind: string)
    ensures DefaultElevation(kind) ==
              if kind == "outlet" then 15.0 else if kind == "sink" then 32.0 else if kind == "mirror" then 48.0
              else if kind == "light" then 78.0 else if kind == "window" then 42.0 else 36.0
  {
  }

  /**
   * The fixture fields the fallback parser derives, from the lower-cased
   * instruction and the results of the dimension and position patterns.
   */
  function ManualFields(lower: string, dimensions: Option<InstructionMatch.Numbers>, position: Option<InstructionMatch.Numbers>,
                        wallId: string, wallWidthFeet: real): (r: Db.FixtureData)
    ensures r.wallId == wallId && r.productUrl.None? && r.notes.None?
  {
    var kind := DetectKind(lower);
    var size := match dimensions
                case Some(n) => (n.first as real, n.second as real)
                case None => DefaultSize(kind.keyword);
    var at := match position
              case Some(n) => (n.first as real, n.second as real)
              case None => (wallWidthFeet * 6.0, DefaultElevation(kind.keyword));
    Db.FixtureData(kind.keyword, kind.name, size.0, size.1, at.0, at.1, wallId, None, None)
  }

  /** The fixture fields the fallback parser derives from an add instruction. */
  function ManualFixtureData(instruction: string, wallId: string, wallWidthFeet: real): (r: Db.FixtureData)
    ensures r.wallId == wallId && r.productUrl.None? && r.notes.None?
  {
    ManualFields(JsText.ToLower(instruction), InstructionMatch.Match(instruction, InstructionMatch.Dimensions),
                 InstructionMatch.Match(instruction, InstructionMatch.Position), wallId, wallWidthFeet)
  }

  /** The confirmation message of the add path. */
  function AddedMessage(name: string, width: real, height: real, x: real, y: real, num: real -> string): string {
    "Added " + name + " (" + num(width) + "\" × " + num(height) + "\") at position (" + num(x) + "\", " + num(y) + "\")"
  }

  /** The reply to an instruction that asks for nothing to be added. */
  const HelpMessage: string :=
    "To use the AI agent, please set your ANTHROPIC_API_KEY in the .env file.\n\nFor manual entry, use this format:\n"
    + "\"Add a [fixture type] that is [width] by [height] inches at position [x], [y]\"\n\n"
    + "Example: \"Add a sink that is 24 by 8 inches at position 30, 36\""

  /** The body the fallback parser returns, given the id the new fixture would receive. */
  function ManualBody(instruction: string, wallId: string, wallWidthFeet: real, id: string, now: Timestamp, num: real -> string): Body {
    if IsAddInstruction(JsText.ToLower(instruction)) then
      var data := ManualFixtureData(instruction, wallId, wallWidthFeet);
      Agent("add_fixture", Some([Db.NewFixture(data, id, now)]),
            AddedMessage(data.name, data.widthInches, data.heightInches, data.positionX, data.positionY, num))
    else Agent("clarify", None, HelpMessage)
  }

  /**
   * The add path of `handleManualParsing` up to the store call: the
   * if-chains of the source reassigning the type, name, size and position.
   */
  method ParseAddInstruction(instruction: string, wallId: string, wallWidthFeet: real) returns (data: Db.FixtureData)
    ensures data == ManualFixtureData(instruction, wallId, wallWidthFeet)
  {
    var lower := JsText.ToLower(instruction);
    DetectKindChain(lower);
    var kind, name := "unknown", "New Fixture";
    if JsText.Contains(lower, "sink") {
      kind, name := "sink", "Sink";
    } else if JsText.Contains(lower, "mirror") {
      kind, name := "mirror", "Mirror";
    } else if JsText.Contains(lower, "light") {
      kind, name := "light", "Light Fixture";
    } else if JsText.Contains(lower, "outlet") {
      kind, name := "outlet", "Outlet";
    } else if JsText.Contains(lower, "window") {
      kind, name := "window", "Window";
    }

    var dimensionMatch := InstructionMatch.Match(instruction, InstructionMatch.Dimensions);
    var width, height := 24.0, 24.0;
    if dimensionMatch.Some? {
      width, height := dimensionMatch.value.first as real, dimensionMatch.value.second as real;
    } else {
      if kind == "sink" { width, height := 24.0, 8.0; }
      else if kind == "mirror" { width, height := 30.0, 36.0; }
      else if kind == "light" { width, height := 24.0, 6.0; }
      else if kind == "outlet" { width, height := 4.0, 6.0; }
      else if kind == "window" { width, height := 36.0, 48.0; }
      DefaultSizeChain(kind);
    }

    var posMatch := InstructionMatch.Match(instruction, InstructionMatch.Position);
    var posX, posY := wallWidthFeet * 6.0, 36.0;
    if posMatch.Some? {
      posX, posY := posMatch.value.first as real, posMatch.value.second as real;
    } else {
      if kind == "outlet" { posY := 15.0; }
      else if kind == "sink" { posY := 32.0; }
      else if kind == "mirror" { posY := 48.0; }
      else if kind == "light" { posY := 78.0; }
      else if kind == "window" { posY := 42.0; }
      DefaultElevationChain(kind);
    }
    data := Db.FixtureData(kind, name, width, height, posX, posY, wallId, None, None);
  }

  /**
   * `handleManualParsing`: an instruction that asks to add something
   * creates exactly one fixture; any other gets the help text.
   */
  method HandleManualParsing(db: Db.Database, instruction: string, wallId: string, wall: WallWithFixtures,
                             num: real -> string, now: Timestamp) returns (body: Body)
    requires db.Valid()
    modifies db`fixtures, db`uuidsDrawn
    ensures db.Valid()
    ensures body == ManualBody(instruction, wallId, wall.widthFeet, Db.ChosenId(None, db.uuid, old(db.uuidsDrawn)), now, num)
    ensures IsAddInstruction(JsText.ToLower(instruction)) ==>
              var f := body.fixtures.value[0];
              db.fixtures == Set(old(db.fixtures), f.id, f) && db.uuidsDrawn == old(db.uuidsDrawn) + 1
    ensures !IsAddInstruction(JsText.ToLower(instruction)) ==>
              db.fixtures == old(db.fixtures) && db.uuidsDrawn == old(db.uuidsDrawn)
  {
    var lower := JsText.ToLower(instruction);
    body := Agent("clarify", None, "");
    if JsText.Contains(lower, "add") || JsText.Contains(lower, "place") || JsText.Contains(lower, "put") {
      var data := ParseAddInstruction(instruction, wallId, wall.widthFeet);
      var fixture := db.CreateFixture(data, None, now);
      body := Agent("add_fixture", Some([fixture]),
                    AddedMessage(data.name, data.widthInches, data.heightInches, data.positionX, data.positionY, num));
    } else {
      body := body.(message := HelpMessage);
    }
  }

  // ---------------------------------------------------------------------
  // Storing what the language model proposed.
  // ---------------------------------------------------------------------

  datatype AiAction = AddFixture | Clarify | Error

  function ActionName(a: AiAction): string {
    match a
    case AddFixture => "add_fixture"
    case Clarify => "clarify"
    case Error => "error"
  }

  /** One fixture of the model's structured answer. */
  datatype AiFixture = AiFixture(
    kind: string,
    name: string,
    widthInches: real,
    heightInches: real,
    positionX: real,
    positionY: real,
    productUrl: Option<string>,
    notes: Option<string>)

  /** The model's structured answer. */
  datatype AiResponse = AiResponse(action: AiAction, fixtures: Option<seq<AiFixture>>, message: string)

  /** The response asks for fixtures to be created: the action is `add_fixture` and the list is non-empty. */
  predicate CreatesFixtures(ai: AiResponse) {
    ai.action == AddFixture && ai.fixtures.Some? && |ai.fixtures.value| > 0
  }

  /** The fields passed to `createFixture` for one proposed fixture. */
  function AiFixtureData(a: AiFixture, wallId: string): (r: Db.FixtureData)
    ensures r.wallId == wallId && r.kind == a.kind && r.name == a.name
  {
    Db.FixtureData(a.kind, a.name, a.widthInches, a.heightInches, a.positionX, a.positionY, wallId, a.productUrl, a.notes)
  }

  /** The fixtures created for `proposed`, the k-th under the k-th fresh uuid after `drawn`,
   *  stamped with the clock's k-th reading. */
  function CreatedFixtures(proposed: seq<AiFixture>, wallId: string, uuid: nat -> string, drawn: nat, clock: nat -> Timestamp): (r: seq<Fixture>)
    ensures |r| == |proposed|
    ensures forall k :: 0 <= k < |r| ==> r[k].id == uuid(drawn + k) && r[k].wallId == wallId && r[k].kind == proposed[k].kind
    ensures forall k :: 0 <= k < |r| ==> r[k].createdAt == clock(k) && r[k].updatedAt == clock(k)
  {
    seq(|proposed|, k requires 0 <= k < |proposed| => CreatedFixtureAt(proposed, k, wallId, uuid, drawn, clock))
  }

  /** The k-th element of `CreatedFixtures`. */
  function CreatedFixtureAt(proposed: seq<AiFixture>, k: nat, wallId: string, uuid: nat -> string, drawn: nat, clock: nat -> Timestamp): Fixture
    requires k < |proposed|
  {
    Db.NewFixture(AiFixtureData(proposed[k], wallId), uuid(drawn + k), clock(k))
  }

  lemma CreatedFixturesSnoc(proposed: seq<AiFixture>, k: nat, wallId: string, uuid: nat -> string, drawn: nat, clock: nat -> Timestamp)
    requires k < |proposed|
    ensures CreatedFixtures(proposed[..k + 1], wallId, uuid, drawn, clock)
            == CreatedFixtures(proposed[..k], wallId, uuid, drawn, clock) + [Db.NewFixture(AiFixtureData(proposed[k], wallId), uuid(drawn + k), clock(k))]
  {
    var a := CreatedFixtures(proposed[..k + 1], wallId, uuid, drawn, clock);
    var b := CreatedFixtures(proposed[..k], wallId, uuid, drawn, clock);
    assert forall i :: 0 <= i < k ==> a[i] == b[i];
  }

  /** The body `processAIResponse` returns, given the uuids the store would draw. */
  function AiBody(ai: AiResponse, wallId: string, uuid: nat -> string, drawn: nat, clock: nat -> Timestamp): Body {
    if CreatesFixtures(ai) then Agent("add_fixture", Some(CreatedFixtures(ai.fixtures.value, wallId, uuid, drawn, clock)), ai.message)
    else Agent(ActionName(ai.action), None, ai.message)
  }

  /** The `map` of `processAIResponse`: one `createFixture` per proposed fixture, in order. */
  method CreateEach(db: Db.Database, proposed: seq<AiFixture>, wallId: string, clock: nat -> Timestamp) returns (created: seq<Fixture>)
    requires db.Valid()
    modifies db`fixtures, db`uuidsDrawn
    ensures db.Valid()
    ensures created == CreatedFixtures(proposed, wallId, db.uuid, old(db.uuidsDrawn), clock)
    ensures db.fixtures == Db.StoreAll(old(db.fixtures), created)
    ensures db.uuidsDrawn == old(db.uuidsDrawn) + |proposed|
  {
    created := [];
    ghost var fixtures0, drawn0 := db.fixtures, db.uuidsDrawn;
    for k := 0 to |proposed|
      invariant db.Valid()
      invariant db.uuidsDrawn == drawn0 + k
      invariant created == CreatedFixtures(proposed[..k], wallId, db.uuid, drawn0, clock)
      invariant db.fixtures == Db.StoreAll(fixtures0, created)
    {
      var data := AiFixtureData(proposed[k], wallId);
      ghost var id := Db.ChosenId(None, db.uuid, db.uuidsDrawn);
      assert id == db.uuid(drawn0 + k);
      var f := db.CreateFixture(data, None, clock(k));
      assert f == Db.NewFixture(data, id, clock(k));
      CreatedFixturesSnoc(proposed, k, wallId, db.uuid, drawn0, clock);
      Db.StoreAllSnoc(fixtures0, created, f);
      created := created + [f];
    }
    assert proposed[..|proposed|] == proposed;
  }

  /** `processAIResponse`: fixtures are created only for a non-empty `add_fixture` answer. */
  method ProcessAIResponse(db: Db.Database, ai: AiResponse, wallId: string, clock: nat -> Timestamp) returns (body: Body)
    requires db.Valid()
    modifies db`fixtures, db`uuidsDrawn
    ensures db.Valid()
    ensures body == AiBody(ai, wallId, db.uuid, old(db.uuidsDrawn), clock)
    ensures CreatesFixtures(ai) ==>
              db.fixtures == Db.StoreAll(old(db.fixtures), body.fixtures.value)
              && db.uuidsDrawn == old(db.uuidsDrawn) + |ai.fixtures.value|
    ensures !CreatesFixtures(ai) ==> db.fixtures == old(db.fixtures) && db.uuidsDrawn == old(db.uuidsDrawn)
  {
    if ai.action == AddFixture && ai.fixtures.Some? && |ai.fixtures.value| > 0 {
      var created := CreateEach(db, ai.fixtures.value, wallId, clock);
      body := Agent("add_fixture", Some(created), ai.message);
    } else {
      body := Agent(ActionName(ai.action), None, ai.message);
    }
  }

  // ---------------------------------------------------------------------
  // The request checks of POST.
  // ---------------------------------------------------------------------

  /** The fields `POST` reads from the JSON body; `None` is a missing field. */
  datatype AgentRequest = AgentRequest(instruction: Option<string>, wallId: Option<string>)

  /** The fallback parser is used when the key is unset, empty or the placeholder. */
  predicate UsesManualParser(apiKey: Option<string>) {
    !JsText.Truthy(apiKey) || apiKey.value == "your-api-key-here"
  }

  /**
   * `POST /api/ai-agent`. The environment's API key and the language
   * model's answer to this instruction are parameters; the model is
   * consulted only when the key is usable. Each `createFixture` reads the
   * clock anew: the k-th one reads `clock(k)`, so the single manual create
   * reads `clock(0)`.
   */
  method Post(db: Db.Database, request: AgentRequest, apiKey: Option<string>, ai: AiResponse,
              num: real -> string, clock: nat -> Timestamp) returns (reply: Reply)
    requires db.Valid()
    modifies db`fixtures, db`uuidsDrawn
    ensures db.Valid()
    ensures !JsText.Truthy(request.instruction) || !JsText.Truthy(request.wallId) ==>
              reply == Reply(400, Failure("Missing instruction or wallId"))
    ensures JsText.Truthy(request.instruction) && JsText.Truthy(request.wallId) && request.wallId.value !in old(db.walls.entries) ==>
              reply == Reply(404, Failure("Wall not found"))
    ensures reply.status != 200 ==> db.fixtures == old(db.fixtures) && db.uuidsDrawn == old(db.uuidsDrawn)
    ensures JsText.Truthy(request.instruction) && JsText.Truthy(request.wallId) && request.wallId.value in old(db.walls.entries) ==>
              var wall := old(db.walls.entries[request.wallId.value]);
              var id := Db.ChosenId(None, db.uuid, old(db.uuidsDrawn));
              reply.status == 200
              && reply.body == if UsesManualParser(apiKey)
                               then ManualBody(request.instruction.value, request.wallId.value, wall.widthFeet, id, clock(0), num)
                               else AiBody(ai, request.wallId.value, db.uuid, old(db.uuidsDrawn), clock)
    ensures reply.status == 200 && UsesManualParser(apiKey) && IsAddInstruction(JsText.ToLower(request.instruction.value)) ==>
              var f := reply.body.fixtures.value[0];
              db.fixtures == Set(old(db.fixtures), f.id, f) && db.uuidsDrawn == old(db.uuidsDrawn) + 1
    ensures reply.status == 200 && UsesManualParser(apiKey) && !IsAddInstruction(JsText.ToLower(request.instruction.value)) ==>
              db.fixtures == old(db.fixtures) && db.uuidsDrawn == old(db.uuidsDrawn)
    ensures reply.status == 200 && !UsesManualParser(apiKey) && CreatesFixtures(ai) ==>
              db.fixtures == Db.StoreAll(old(db.fixtures), reply.body.fixtures.value)
              && db.uuidsDrawn == old(db.uuidsDrawn) + |ai.fixtures.value|
    ensures reply.status == 200 && !UsesManualParser(apiKey) && !CreatesFixtures(ai) ==>
              db.fixtures == old(db.fixtures) && db.uuidsDrawn == old(db.uuidsDrawn)
  {
    if !JsText.Truthy(request.instruction) || !JsText.Truthy(request.wallId) {
      return Reply(400, Failure("Missing instruction or wallId"));
    }
    var instruction, wallId := request.instruction.value, request.wallId.value;
    var wall := db.GetWallWithFixtures(wallId);
    if wall.None? {
      return Reply(404, Failure("Wall not found"));
    }
    var body;
    if UsesManualParser(apiKey) {
      body := HandleManualParsing(db, instruction, wallId, wall.value, num, clock(0));
    } else {
      body := ProcessAIResponse(db, ai, wallId, clock);
    }
    reply := Reply(200, body);
  }

  // ---------------------------------------------------------------------
  // Properties of the parser and of the store updates.
  // ---------------------------------------------------------------------

  /** Scanning from `start`, entry `i` is chosen exactly when it is mentioned and no entry before it is. */
  lemma {:induction false} FirstMentionedAt(lower: string, start: nat, i: nat)
    requires start <= i < |KindTable|
    ensures FirstMentioned(lower, start) == KindTable[i] <==>
              JsText.Contains(lower, KindTable[i].keyword)
              && forall j :: start <= j < i ==> !JsText.Contains(lower, KindTable[j].keyword)
    decreases i - start
  {
    if start == i {
      assert FirstMentioned(lower, start) == KindTable[i] <==> JsText.Contains(lower, KindTable[i].keyword);
    } else {
      FirstMentionedAt(lower, start + 1, i);
      assert KindTable[start] != KindTable[i];
    }
  }

  /**
   * Type detection follows the priority sink, mirror, light, outlet,
   * window: a type is chosen exactly when its keyword occurs and no
   * earlier one does.
   */
  lemma DetectKindPriority(lower: string, i: nat)
    requires i < |KindTable|
    ensures DetectKind(lower) == KindTable[i] <==>
              JsText.Contains(lower, KindTable[i].keyword)
              && forall j :: 0 <= j < i ==> !JsText.Contains(lower, KindTable[j].keyword)
  {
    FirstMentionedAt(lower, 0, i);
  }

  /** Scanning from `start` falls through to `Unknown` exactly when no later keyword occurs. */
  lemma {:induction false} FirstMentionedNone(lower: string, start: nat)
    requires start <= |KindTable|
    ensures FirstMentioned(lower, start) == Unknown <==>
              forall j :: start <= j < |KindTable| ==> !JsText.Contains(lower, KindTable[j].keyword)
    decreases |KindTable| - start
  {
    if start < |KindTable| {
      FirstMentionedNone(lower, start + 1);
      assert KindTable[start] != Unknown;
    }
  }

  /** Type `unknown`, named "New Fixture", exactly when no keyword occurs. */
  lemma DetectKindUnknown(lower: string)
    ensures DetectKind(lower) == Unknown <==> forall j :: 0 <= j < |KindTable| ==> !JsText.Contains(lower, KindTable[j].keyword)
  {
    FirstMentionedNone(lower, 0);
  }

  /** Every default size is a positive whole number of inches. */
  lemma DefaultSizesAreWhole(kind: string)
    ensures var (w, h) := DefaultSize(kind); w > 0.0 && h > 0.0 && w == w.Floor as real && h == h.Floor as real
  {
    DefaultSizeChain(kind);
  }

  /**
   * The parsed size is the matched "W by H" when there is one, else the
   * type's default; either way it is a non-negative whole number of inches,
   * since only runs of digits are captured.
   */
  lemma ManualSize(lower: string, dimensions: Option<InstructionMatch.Numbers>, position: Option<InstructionMatch.Numbers>,
                   wallId: string, wallWidthFeet: real)
    ensures var data := ManualFields(lower, dimensions, position, wallId, wallWidthFeet);
            && data.widthInches >= 0.0 && data.widthInches == data.widthInches.Floor as real
            && data.heightInches >= 0.0 && data.heightInches == data.heightInches.Floor as real
            && match dimensions
               case Some(n) => data.widthInches == n.first as real && data.heightInches == n.second as real
               case None => (data.widthInches, data.heightInches) == DefaultSize(data.kind)
  {
    DefaultSizesAreWhole(DetectKind(lower).keyword);
  }

  /**
   * The parsed position is the matched "at X, Y" when there is one, whole
   * non-negative inches; else the wall's horizontal centre at the type's
   * default height.
   */
  lemma ManualPosition(lower: string, dimensions: Option<InstructionMatch.Numbers>, position: Option<InstructionMatch.Numbers>,
                       wallId: string, wallWidthFeet: real)
    ensures var data := ManualFields(lower, dimensions, position, wallId, wallWidthFeet);
            match position
            case Some(n) => data.positionX == n.first as real && data.positionY == n.second as real
                            && data.positionX >= 0.0 && data.positionX == data.positionX.Floor as real
                            && data.positionY >= 0.0 && data.positionY == data.positionY.Floor as real
            case None => data.positionX == wallWidthFeet * 12.0 / 2.0 && data.positionY == DefaultElevation(data.kind)
  {
  }

  /** The fallback parser either adds exactly one fixture on the requested wall or returns the help text. */
  lemma ManualBodyShape(instruction: string, wallId: string, wallWidthFeet: real, id: string, now: Timestamp, num: real -> string)
    ensures var body := ManualBody(instruction, wallId, wallWidthFeet, id, now, num);
            if IsAddInstruction(JsText.ToLower(instruction))
            then body.Agent? && body.action == "add_fixture" && body.fixtures.Some? && |body.fixtures.value| == 1
                 && body.fixtures.value[0].wallId == wallId && body.fixtures.value[0].id == id
                 && (body.fixtures.value[0].kind == "unknown" || exists i :: 0 <= i < |KindTable| && body.fixtures.value[0].kind == KindTable[i].keyword)
            else body == Agent("clarify", None, HelpMessage)
  {
    if IsAddInstruction(JsText.ToLower(instruction)) {
      DetectKindChain(JsText.ToLower(instruction));
    }
  }

  /**
   * When the uuids drawn are new to the table and pairwise different, the
   * fixtures of an `add_fixture` answer are appended to the table in the
   * order the model listed them, each on the requested wall.
   */
  lemma AiFixturesAppendedInOrder(m: OrderedMap<Fixture>, proposed: seq<AiFixture>, wallId: string,
                                  uuid: nat -> string, drawn: nat, clock: nat -> Timestamp)
    requires m.Valid()
    requires forall i :: drawn <= i < drawn + |proposed| ==> uuid(i) !in m.entries
    requires forall i, j :: drawn <= i < j < drawn + |proposed| ==> uuid(i) != uuid(j)
    ensures var created := CreatedFixtures(proposed, wallId, uuid, drawn, clock);
            Values(Db.StoreAll(m, created)) == Values(m) + created
            && forall k :: 0 <= k < |created| ==> created[k].wallId == wallId && created[k].kind == proposed[k].kind
  {
    var created := CreatedFixtures(proposed, wallId, uuid, drawn, clock);
    forall a, b | 0 <= a < b < |created| ensures created[a].id != created[b].id {
      assert created[a].id == uuid(drawn + a) && created[b].id == uuid(drawn + b);
    }
    forall k | 0 <= k < |created| ensures created[k].id !in m.entries {
      assert created[k].id == uuid(drawn + k);
    }
    Db.StoreAllAppends(m, created);
  }
}
