/**
 * The in-memory store: four keyed tables (clients, rooms, walls and
 * fixtures), each a JavaScript `Map` that remembers insertion order.
 * `crypto.randomUUID()` is a stream of identifiers `uuid` owned by the
 * store together with how many have been drawn; `new Date()` is the `now`
 * argument of each call.
 */
module Db {
  import opened Wrappers
  import opened Types
  import opened OrderedMaps
  import Sequences

  /** What a caller supplies to create a client, room, wall or fixture: the record without id and timestamps. */
  datatype ClientData = ClientData(name: string, email: Option<string>, phone: Option<string>)

  datatype RoomData = RoomData(name: string, description: Option<string>, clientId: string)

  datatype WallData = WallData(name: string, widthFeet: real, heightFeet: real, roomId: string)

  datatype FixtureData = FixtureData(
    kind: string,
    name: string,
    widthInches: real,
    heightInches: real,
    positionX: real,
    positionY: real,
    wallId: string,
    productUrl: Option<string>,
    notes: Option<string>)

  /** The fields an update may supply; `id`, `wallId` and the timestamps are not among them. */
  datatype FixturePatch = FixturePatch(
    kind: Option<string>,
    name: Option<string>,
    widthInches: Option<real>,
    heightInches: Option<real>,
    positionX: Option<real>,
    positionY: Option<real>,
    productUrl: Option<string>,
    notes: Option<string>)

  /** `{ ...data, id, createdAt: now, updatedAt: now }`. */
  function NewFixture(data: FixtureData, id: string, now: Timestamp): (f: Fixture)
    ensures f.id == id && f.wallId == data.wallId && f.createdAt == now && f.updatedAt == now
  {
    Fixture(id, data.kind, data.name, data.widthInches, data.heightInches, data.positionX, data.positionY,
            data.productUrl, data.notes, data.wallId, now, now)
  }

  /** `{ ...fixture, ...patch, updatedAt: now }`: supplied fields win, every other field is kept. */
  function ApplyPatch(f: Fixture, p: FixturePatch, now: Timestamp): (r: Fixture)
    ensures r.id == f.id && r.wallId == f.wallId && r.createdAt == f.createdAt && r.updatedAt == now
    ensures (p.kind.Some? ==> r.kind == p.kind.value) && (p.kind.None? ==> r.kind == f.kind)
    ensures (p.name.Some? ==> r.name == p.name.value) && (p.name.None? ==> r.name == f.name)
    ensures (p.widthInches.Some? ==> r.widthInches == p.widthInches.value) && (p.widthInches.None? ==> r.widthInches == f.widthInches)
    ensures (p.heightInches.Some? ==> r.heightInches == p.heightInches.value) && (p.heightInches.None? ==> r.heightInches == f.heightInches)
    ensures (p.positionX.Some? ==> r.positionX == p.positionX.value) && (p.positionX.None? ==> r.positionX == f.positionX)
    ensures (p.positionY.Some? ==> r.positionY == p.positionY.value) && (p.positionY.None? ==> r.positionY == f.positionY)
    ensures (p.productUrl.Some? ==> r.productUrl == p.productUrl) && (p.productUrl.None? ==> r.productUrl == f.productUrl)
    ensures (p.notes.Some? ==> r.notes == p.notes) && (p.notes.None? ==> r.notes == f.notes)
  {
    f.(kind := p.kind.GetOr(f.kind),
       name := p.name.GetOr(f.name),
       widthInches := p.widthInches.GetOr(f.widthInches),
       heightInches := p.heightInches.GetOr(f.heightInches),
       positionX := p.positionX.GetOr(f.positionX),
       positionY := p.positionY.GetOr(f.positionY),
       productUrl := if p.productUrl.Some? then p.productUrl else f.productUrl,
       notes := if p.notes.Some? then p.notes else f.notes,
       updatedAt := now)
  }

  /** Applying the same patch twice at the same instant is applying it once. */
  lemma ApplyPatchIdempotent(f: Fixture, p: FixturePatch, now: Timestamp)
    ensures ApplyPatch(ApplyPatch(f, p, now), p, now) == ApplyPatch(f, p, now)
  {
  }

  /** `Array.prototype.filter`: the elements of `s` that `keep` accepts, in their order. */
  function Filter<T(!new)>(s: seq<T>, keep: T -> bool): (r: seq<T>)
    ensures |r| <= |s|
    ensures forall x :: x in r <==> x in s && keep(x)
  {
    if s == [] then []
    else (if keep(s[0]) then [s[0]] else []) + Filter(s[1..], keep)
  }

  /** Filtering distributes over concatenation, so it keeps the order of its input. */
  lemma {:induction false} FilterConcat<T(!new)>(a: seq<T>, b: seq<T>, keep: T -> bool)
    ensures Filter(a + b, keep) == Filter(a, keep) + Filter(b, keep)
  {
    if a != [] {
      assert (a + b)[1..] == a[1..] + b;
      FilterConcat(a[1..], b, keep);
    } else {
      assert a + b == b;
    }
  }

  /** A list all of whose elements are accepted is its own filter. */
  lemma {:induction false} FilterAll<T(!new)>(s: seq<T>, keep: T -> bool)
    requires forall x :: x in s ==> keep(x)
    ensures Filter(s, keep) == s
  {
    if s != [] {
      FilterAll(s[1..], keep);
    }
  }

  /** The id a create call stores under: the requested one, else the next uuid (`options.id ?? crypto.randomUUID()`). */
  function ChosenId(requested: Option<string>, uuid: nat -> string, drawn: nat): string {
    requested.GetOr(uuid(drawn))
  }

  class Database {
    var clients: OrderedMap<Client>
    var rooms: OrderedMap<Room>
    var walls: OrderedMap<Wall>
    var fixtures: OrderedMap<Fixture>
    /** The identifiers `crypto.randomUUID()` returns, in order, and how many have been used. */
    const uuid: nat -> string
    var uuidsDrawn: nat

    /** Each table is a valid map and stores every record under its own id. */
    ghost predicate Valid()
      reads this
    {
      && clients.Valid() && rooms.Valid() && walls.Valid() && fixtures.Valid()
      && (forall k :: k in clients.entries ==> clients.entries[k].id == k)
      && (forall k :: k in rooms.entries ==> rooms.entries[k].id == k)
      && (forall k :: k in walls.entries ==> walls.entries[k].id == k)
      && (forall k :: k in fixtures.entries ==> fixtures.entries[k].id == k)
    }

    constructor (uuid: nat -> string)
      ensures Valid()
      ensures clients == Empty() && rooms == Empty() && walls == Empty() && fixtures == Empty()
      ensures this.uuid == uuid && uuidsDrawn == 0
    {
      clients, rooms, walls, fixtures := Empty(), Empty(), Empty(), Empty();
      this.uuid := uuid;
      uuidsDrawn := 0;
    }

    /** `options.id ?? crypto.randomUUID()`: a uuid is drawn only when no id is requested. */
    method TakeId(requested: Option<string>) returns (id: string)
      modifies this`uuidsDrawn
      ensures id == ChosenId(requested, uuid, old(uuidsDrawn))
      ensures uuidsDrawn == if requested.Some? then old(uuidsDrawn) else old(uuidsDrawn) + 1
    {
      if requested.Some? {
        id := requested.value;
      } else {
        id := uuid(uuidsDrawn);
        uuidsDrawn := uuidsDrawn + 1;
      }
    }

    // Client operations

    method CreateClient(data: ClientData, requested: Option<string>, now: Timestamp) returns (c: Client)
      requires Valid()
      modifies this`clients, this`uuidsDrawn
      ensures Valid()
      ensures c == Client(ChosenId(requested, uuid, old(uuidsDrawn)), data.name, data.email, data.phone, now, now)
      ensures uuidsDrawn == if requested.Some? then old(uuidsDrawn) else old(uuidsDrawn) + 1
      ensures clients == Set(old(clients), c.id, c)
      ensures GetClient(c.id) == Some(c)
    {
      var id := TakeId(requested);
      c := Client(id, data.name, data.email, data.phone, now, now);
      clients := Set(clients, id, c);
    }

    function GetClient(id: string): (r: Option<Client>)
      reads this
      ensures r.Some? <==> id in clients.entries
      ensures r.Some? ==> r.value == clients.entries[id]
    {
      Get(clients, id)
    }

    function GetAllClients(): (r: seq<Client>)
      reads this
      requires Valid()
      ensures forall c :: c in r <==> c in clients.entries.Values
    {
      Values(clients)
    }

    // Room operations

    method CreateRoom(data: RoomData, requested: Option<string>, now: Timestamp) returns (r: Room)
      requires Valid()
      modifies this`rooms, this`uuidsDrawn
      ensures Valid()
      ensures r == Room(ChosenId(requested, uuid, old(uuidsDrawn)), data.name, data.description, data.clientId, now, now)
      ensures uuidsDrawn == if requested.Some? then old(uuidsDrawn) else old(uuidsDrawn) + 1
      ensures rooms == Set(old(rooms), r.id, r)
      ensures GetRoom(r.id) == Some(r)
    {
      var id := TakeId(requested);
      r := Room(id, data.name, data.description, data.clientId, now, now);
      rooms := Set(rooms, id, r);
    }

    function GetRoom(id: string): (r: Option<Room>)
      reads this
      ensures r.Some? <==> id in rooms.entries
      ensures r.Some? ==> r.value == rooms.entries[id]
    {
      Get(rooms, id)
    }

    /** The stored rooms of one client, in insertion order. */
    function GetRoomsByClient(clientId: string): (r: seq<Room>)
      reads this
      requires Valid()
      ensures forall x :: x in r <==> x in rooms.entries.Values && x.clientId == clientId
    {
      Filter(Values(rooms), (x: Room) => x.clientId == clientId)
    }

    // Wall operations

    method CreateWall(data: WallData, requested: Option<string>, now: Timestamp) returns (w: Wall)
      requires Valid()
      modifies this`walls, this`uuidsDrawn
      ensures Valid()
      ensures w == Wall(ChosenId(requested, uuid, old(uuidsDrawn)), data.name, data.widthFeet, data.heightFeet, data.roomId, now, now)
      ensures uuidsDrawn == if requested.Some? then old(uuidsDrawn) else old(uuidsDrawn) + 1
      ensures walls == Set(old(walls), w.id, w)
      ensures GetWall(w.id) == Some(w)
    {
      var id := TakeId(requested);
      w := Wall(id, data.name, data.widthFeet, data.heightFeet, data.roomId, now, now);
      walls := Set(walls, id, w);
    }

    function GetWall(id: string): (r: Option<Wall>)
      reads this
      ensures r.Some? <==> id in walls.entries
      ensures r.Some? ==> r.value == walls.entries[id]
    {
      Get(walls, id)
    }

    /** The stored walls of one room, in insertion order. */
    function GetWallsByRoom(roomId: string): (r: seq<Wall>)
      reads this
      requires Valid()
      ensures forall x :: x in r <==> x in walls.entries.Values && x.roomId == roomId
    {
      Filter(Values(walls), (x: Wall) => x.roomId == roomId)
    }

    /** A rooms table holding one room lists just that room for its client. */
    lemma OnlyRoomListed(r: Room)
      requires Valid() && rooms == Set(Empty(), r.id, r)
      ensures GetRoomsByClient(r.clientId) == [r]
    {
      ValuesOfSetNew(Empty<Room>(), r.id, r);
    }

    /** A walls table holding one wall lists just that wall for its room. */
    lemma OnlyWallListed(w: Wall)
      requires Valid() && walls == Set(Empty(), w.id, w)
      ensures GetWallsByRoom(w.roomId) == [w]
    {
      ValuesOfSetNew(Empty<Wall>(), w.id, w);
    }

    /** The wall's own fields plus its fixtures, or nothing for an unknown wall. */
    function GetWallWithFixtures(id: string): (r: Option<WallWithFixtures>)
      reads this
      requires Valid()
      ensures r.None? <==> id !in walls.entries
      ensures r.Some? ==> r.value.id == id && r.value.fixtures == GetFixturesByWall(id)
      ensures r.Some? ==> r.value == WithFixtures(walls.entries[id], GetFixturesByWall(id))
    {
      match GetWall(id)
      case None => None
      case Some(w) => Some(WithFixtures(w, GetFixturesByWall(id)))
    }

    // Fixture operations

    method CreateFixture(data: FixtureData, requested: Option<string>, now: Timestamp) returns (f: Fixture)
      requires Valid()
      modifies this`fixtures, this`uuidsDrawn
      ensures Valid()
      ensures f == NewFixture(data, ChosenId(requested, uuid, old(uuidsDrawn)), now)
      ensures uuidsDrawn == if requested.Some? then old(uuidsDrawn) else old(uuidsDrawn) + 1
      ensures fixtures == Set(old(fixtures), f.id, f)
      ensures GetFixture(f.id) == Some(f)
    {
      var id := TakeId(requested);
      f := NewFixture(data, id, now);
      fixtures := Set(fixtures, id, f);
    }

    function GetFixture(id: string): (r: Option<Fixture>)
      reads this
      ensures r.Some? <==> id in fixtures.entries
      ensures r.Some? ==> r.value == fixtures.entries[id]
    {
      Get(fixtures, id)
    }

    /** Exactly the stored fixtures on wall `wallId`, in insertion order. */
    function GetFixturesByWall(wallId: string): (r: seq<Fixture>)
      reads this
      requires Valid()
      ensures forall f :: f in r <==> f in fixtures.entries.Values && f.wallId == wallId
    {
      Filter(Values(fixtures), (f: Fixture) => f.wallId == wallId)
    }

    /**
     * Merges `patch` into the stored fixture `id`. An unknown id changes
     * nothing and gives no result; a known one is replaced in place (its
     * position in insertion order is kept) and nothing else changes.
     */
    method UpdateFixture(id: string, patch: FixturePatch, now: Timestamp) returns (r: Option<Fixture>)
      requires Valid()
      modifies this`fixtures
      ensures Valid()
      ensures r.None? <==> id !in old(fixtures.entries)
      ensures r.None? ==> fixtures == old(fixtures)
      ensures r.Some? ==> r.value == ApplyPatch(old(fixtures.entries[id]), patch, now)
      ensures r.Some? ==> fixtures == Set(old(fixtures), id, r.value) && fixtures.keys == old(fixtures.keys)
    {
      var current := Get(fixtures, id);
      if current.None? {
        return None;
      }
      var updated := ApplyPatch(current.value, patch, now);
      fixtures := Set(fixtures, id, updated);
      r := Some(updated);
    }

    /** `fixtures.delete(id)`: true exactly when `id` was stored; afterwards it is not. */
    method DeleteFixture(id: string) returns (existed: bool)
      requires Valid()
      modifies this`fixtures
      ensures Valid()
      ensures existed == (id in old(fixtures.entries))
      ensures fixtures == Delete(old(fixtures), id)
      ensures GetFixture(id) == None
    {
      existed := Has(fixtures, id);
      fixtures := Delete(fixtures, id);
    }
  }

  /** Creating a fixture under a new key appends it to the fixtures of its wall and leaves other walls' lists alone. */
  lemma FixturesByWallAfterCreate(m: OrderedMap<Fixture>, f: Fixture, wallId: string)
    requires m.Valid() && f.id !in m.entries
    ensures Filter(Values(Set(m, f.id, f)), (x: Fixture) => x.wallId == wallId)
         == Filter(Values(m), (x: Fixture) => x.wallId == wallId) + (if f.wallId == wallId then [f] else [])
  {
    ValuesOfSetNew(m, f.id, f);
    FilterConcat(Values(m), [f], (x: Fixture) => x.wallId == wallId);
  }

  /** The table after `fixtures` were set one after the other. */
  function StoreAll(m: OrderedMap<Fixture>, fixtures: seq<Fixture>): (r: OrderedMap<Fixture>)
    requires m.Valid()
    ensures r.Valid()
  {
    if fixtures == [] then m
    else
      var last := fixtures[|fixtures| - 1];
      Set(StoreAll(m, fixtures[..|fixtures| - 1]), last.id, last)
  }

  /** Storing one more fixture is one more `set`. */
  lemma StoreAllSnoc(m: OrderedMap<Fixture>, fixtures: seq<Fixture>, f: Fixture)
    requires m.Valid()
    ensures StoreAll(m, fixtures + [f]) == Set(StoreAll(m, fixtures), f.id, f)
  {
    assert (fixtures + [f])[..|fixtures|] == fixtures;
  }

  /** Every key of the table after `StoreAll` was there before or is the id of a stored fixture. */
  lemma {:induction false} StoreAllKeys(m: OrderedMap<Fixture>, fixtures: seq<Fixture>)
    requires m.Valid()
    ensures forall k :: k in StoreAll(m, fixtures).entries ==> k in m.entries || exists f :: f in fixtures && f.id == k
  {
    if fixtures != [] {
      var n := |fixtures| - 1;
      StoreAllKeys(m, fixtures[..n]);
      assert forall f :: f in fixtures[..n] ==> f in fixtures;
      assert fixtures[n] in fixtures;
    }
  }

  /** Setting fixtures whose ids are new and distinct appends them to `values()` in order. */
  lemma {:induction false} StoreAllAppends(m: OrderedMap<Fixture>, fixtures: seq<Fixture>)
    requires m.Valid()
    requires forall k :: 0 <= k < |fixtures| ==> fixtures[k].id !in m.entries
    requires forall a, b :: 0 <= a < b < |fixtures| ==> fixtures[a].id != fixtures[b].id
    ensures Values(StoreAll(m, fixtures)) == Values(m) + fixtures
  {
    if fixtures != [] {
      var n := |fixtures| - 1;
      var front := fixtures[..n];
      StoreAllAppends(m, front);
      StoreAllKeys(m, front);
      assert fixtures[n].id !in StoreAll(m, front).entries by {
        forall f | f in front ensures f.id != fixtures[n].id {
          var i :| 0 <= i < n && front[i] == f;
          assert fixtures[i] == f;
        }
      }
      ValuesOfSetNew(StoreAll(m, front), fixtures[n].id, fixtures[n]);
      Sequences.FrontAndLast(fixtures);
      Sequences.AppendThree(Values(m), front, [fixtures[n]]);
    }
  }

  const SampleClientId := "client-sample"
  const SampleRoomId := "room-sample"
  const SampleWallId := "wall-sample"
  const SampleFixtureIds := ["fixture-sink", "fixture-mirror", "fixture-light", "fixture-outlet"]

  lemma SampleFixtureIdsDistinct()
    ensures forall i, j :: 0 <= i < j < |SampleFixtureIds| ==> SampleFixtureIds[i] != SampleFixtureIds[j]
  {
    assert SampleFixtureIds[0][8] == 's' && SampleFixtureIds[1][8] == 'm' && SampleFixtureIds[2][8] == 'l' && SampleFixtureIds[3][8] == 'o';
  }

  /** The ids of a list of fixtures, in order. */
  function Ids(fs: seq<Fixture>): (r: seq<string>)
    ensures |r| == |fs| && forall i :: 0 <= i < |fs| ==> r[i] == fs[i].id
  {
    if fs == [] then [] else [fs[0].id] + Ids(fs[1..])
  }

  lemma IdsOfFour(a: Fixture, b: Fixture, c: Fixture, d: Fixture)
    ensures Ids([a, b, c, d]) == [a.id, b.id, c.id, d.id]
  {
    assert [a, b, c, d][1..] == [b, c, d];
    assert [b, c, d][1..] == [c, d];
    assert [c, d][1..] == [d];
  }

  /** What `initializeSampleData` passes to `createFixture` for the sink, mirror, light and outlet on wall `wallId`. */
  function SampleFixtureData(wallId: string): (r: seq<FixtureData>)
    ensures |r| == 4 && forall i :: 0 <= i < 4 ==> r[i].wallId == wallId
  {
    [FixtureData("sink", "Vanity Sink", 24.0, 8.0, 24.0, 36.0, wallId, Some("https://example.com/sink"), None),
     FixtureData("mirror", "Wall Mirror", 30.0, 36.0, 21.0, 48.0, wallId, Some("https://example.com/mirror"), None),
     FixtureData("light", "Vanity Light", 24.0, 6.0, 24.0, 86.0, wallId, Some("https://example.com/light"), None),
     FixtureData("outlet", "GFCI Outlet", 4.0, 6.0, 60.0, 42.0, wallId, None, None)]
  }

  /**
   * The four fixtures `initializeSampleData` creates, each under its sample
   * id; the clock reads 0 to 2 went to the client, room and wall, so fixture
   * `i` is stamped with read `3 + i`.
   */
  function SampleFixtures(wallId: string, clock: nat -> Timestamp): (r: seq<Fixture>)
    ensures |r| == 4
  {
    var data := SampleFixtureData(wallId);
    [NewFixture(data[0], SampleFixtureIds[0], clock(3)), NewFixture(data[1], SampleFixtureIds[1], clock(4)),
     NewFixture(data[2], SampleFixtureIds[2], clock(5)), NewFixture(data[3], SampleFixtureIds[3], clock(6))]
  }

  /**
   * The sample fixtures are all on wall `wallId`, carry the four sample
   * ids in order, and stored into an empty table are listed in that order.
   */
  lemma SampleFixturesListed(wallId: string, clock: nat -> Timestamp)
    ensures var sample := SampleFixtures(wallId, clock);
            Ids(sample) == SampleFixtureIds && (forall f :: f in sample ==> f.wallId == wallId)
            && Values(StoreAll(Empty(), sample)) == sample
  {
    var sample := SampleFixtures(wallId, clock);
    IdsOfFour(sample[0], sample[1], sample[2], sample[3]);
    SampleFixtureIdsDistinct();
    StoreAllAppends(Empty(), sample);
  }

  /** One `createFixture` under a requested id, seen as one more fixture stored after `before`. */
  method CreateListed(db: Database, ghost before: seq<Fixture>, data: FixtureData, id: string, now: Timestamp)
    returns (f: Fixture)
    requires db.Valid() && db.fixtures == StoreAll(Empty(), before)
    modifies db`fixtures, db`uuidsDrawn
    ensures db.Valid() && db.uuidsDrawn == old(db.uuidsDrawn)
    ensures f == NewFixture(data, id, now) && db.fixtures == StoreAll(Empty(), before + [f])
  {
    f := db.CreateFixture(data, Some(id), now);
    StoreAllSnoc(Empty(), before, f);
  }

  /** The four sample fixtures of `initializeSampleData`, created in order on wall `wallId`. */
  method CreateSampleFixtures(db: Database, wallId: string, clock: nat -> Timestamp) returns (listed: seq<Fixture>)
    requires db.Valid() && db.fixtures == Empty()
    modifies db`fixtures, db`uuidsDrawn
    ensures db.Valid() && db.uuidsDrawn == old(db.uuidsDrawn)
    ensures listed == SampleFixtures(wallId, clock) && db.fixtures == StoreAll(Empty(), listed)
  {
    var data := SampleFixtureData(wallId);
    var sink := CreateListed(db, [], data[0], SampleFixtureIds[0], clock(3));
    var mirror := CreateListed(db, [] + [sink], data[1], SampleFixtureIds[1], clock(4));
    var light := CreateListed(db, [] + [sink] + [mirror], data[2], SampleFixtureIds[2], clock(5));
    var outlet := CreateListed(db, [] + [sink] + [mirror] + [light], data[3], SampleFixtureIds[3], clock(6));
    listed := [sink, mirror, light, outlet];
    Sequences.SnocFour(sink, mirror, light, outlet);
  }

  /**
   * Seeds a fresh store with one client, one room, the 8' x 8' wall
   * "wall-sample" and four fixtures on it: sink, mirror, light, outlet.
   * Every create reads the clock afresh: `clock(k)` is what the `k`-th
   * create, counted from 0, reads.
   */
  method InitializeSampleData(db: Database, clock: nat -> Timestamp) returns (client: Client, room: Room, wall: Wall)
    requires db.Valid()
    requires db.clients == Empty() && db.rooms == Empty() && db.walls == Empty() && db.fixtures == Empty()
    modifies db
    ensures db.Valid()
    ensures db.uuidsDrawn == old(db.uuidsDrawn)
    ensures client.id == SampleClientId && room.id == SampleRoomId && room.clientId == client.id
    ensures wall.id == SampleWallId && wall.roomId == room.id
    ensures db.GetWall(SampleWallId) == Some(wall) && wall.widthFeet == 8.0 && wall.heightFeet == 8.0
    ensures db.GetWallWithFixtures(SampleWallId).Some?
    ensures client.createdAt == clock(0) && room.createdAt == clock(1) && wall.createdAt == clock(2)
    ensures db.GetFixturesByWall(SampleWallId) == SampleFixtures(SampleWallId, clock)
    ensures Ids(db.GetFixturesByWall(SampleWallId)) == SampleFixtureIds
    ensures db.GetClient(SampleClientId) == Some(client) && db.GetRoom(SampleRoomId) == Some(room)
    ensures db.GetRoomsByClient(SampleClientId) == [room] && db.GetWallsByRoom(SampleRoomId) == [wall]
    ensures db.fixtures == StoreAll(Empty(), SampleFixtures(SampleWallId, clock))
  {
    client := db.CreateClient(ClientData("Sample Client", Some("client@example.com"), Some("555-0123")), Some(SampleClientId), clock(0));
    room := db.CreateRoom(RoomData("Master Bathroom", Some("Primary bathroom renovation"), client.id), Some(SampleRoomId), clock(1));
    wall := db.CreateWall(WallData("North Wall", 8.0, 8.0, room.id), Some(SampleWallId), clock(2));
    var listed := CreateSampleFixtures(db, wall.id, clock);
    SampleFixturesListed(wall.id, clock);
    FilterAll(listed, (f: Fixture) => f.wallId == SampleWallId);
    db.OnlyRoomListed(room);
    db.OnlyWallListed(wall);
  }
}
