/**
 * The vehicle request handlers over the vehicle collection. Every handler that
 * addresses one vehicle first answers 404 for a missing id and 401 for a
 * vehicle owned by someone else, and only then writes.
 */
module VehicleController {
  import opened JsValues
  import opened VehicleModel

  const NotFound := "Vehicle not found"
  const NotAuthorized := "Not authorized"
  const InvalidData := "Invalid vehicle data"
  const Removed := "Vehicle removed"

  /** A response: a list, one document with its status, or a status with a message. */
  datatype Reply =
    | Listed(vehicles: map<string, Vehicle>)
    | Document(status: nat, id: string, vehicle: Vehicle)
    | Message(status: nat, message: string)

  /** The owner's vehicles. */
  function OwnedBy(vehicles: map<string, Vehicle>, userId: string): (r: map<string, Vehicle>)
    ensures forall id :: id in r <==> id in vehicles && vehicles[id].user == userId
    ensures forall id :: id in r ==> r[id] == vehicles[id]
  {
    map id | id in vehicles && vehicles[id].user == userId :: vehicles[id]
  }

  /** The body keys a handler passes on to the document. */
  function Pick(body: map<string, Value>, paths: set<string>): (r: map<string, Value>)
    ensures forall p :: p in r <==> p in body && p in paths
  {
    map p | p in body && p in paths :: body[p]
  }

  /** What `createVehicle` takes from the request body. */
  const AsWrittenPaths: set<string> := {"name", "year", "location", "imageUrl"}

  /** What the schema requires of a new vehicle, besides its owner, plus the image. */
  const CreatePaths: set<string> :=
    {"name", "year", "location", "imageUrl", "fuelType", "registeredName", "transmissionType", "registrationNo"}

  /**
   * Whatever the body holds, the document `createVehicle` builds lacks the fuel
   * type, so validation fails and the handler answers 400.
   */
  lemma AsWrittenCreateRejects(body: map<string, Value>, owner: string)
    ensures Build(Pick(body, AsWrittenPaths), owner).Invalid?
    ensures "fuelType" in Build(Pick(body, AsWrittenPaths), owner).paths
  {
    MissingRequiredRejected(Pick(body, AsWrittenPaths), owner, "fuelType");
  }

  /**
   * With every required path taken from the body, a body holding valid values
   * builds the vehicle, owned by the requester, with the trimmed number.
   */
  lemma CreateAccepts(body: map<string, Value>, owner: string, registrationNo: string)
    requires CreateFailures(Pick(body, CreatePaths)) == []
    requires "registrationNo" in body && body["registrationNo"] == Str(registrationNo)
    ensures Build(Pick(body, CreatePaths), owner).Valid?
    ensures Build(Pick(body, CreatePaths), owner).vehicle.user == owner
    ensures Build(Pick(body, CreatePaths), owner).vehicle.registrationNo == Trim(registrationNo)
  {
    BuildTrims(Pick(body, CreatePaths), owner, registrationNo);
  }

  class VehicleCollection {
    var vehicles: map<string, Vehicle>

    /** The unique index holds and every document passed validation. */
    predicate Valid()
      reads this
    {
      UniqueRegistrations(vehicles) && forall id :: id in vehicles ==> WellFormed(vehicles[id])
    }

    constructor(initial: map<string, Vehicle>)
      requires UniqueRegistrations(initial) && forall id :: id in initial ==> WellFormed(initial[id])
      ensures Valid() && vehicles == initial
    {
      vehicles := initial;
    }

    /** `getVehicles`: exactly the requester's vehicles. */
    method GetVehicles(userId: string) returns (r: Reply)
      ensures r.Listed?
      ensures forall id :: id in r.vehicles <==> id in vehicles && vehicles[id].user == userId
      ensures forall id :: id in r.vehicles ==> r.vehicles[id] == vehicles[id]
    {
      r := Listed(OwnedBy(vehicles, userId));
    }

    /** `getVehicleById`: 404, then 401, then the document; nothing is written. */
    method GetVehicleById(userId: string, id: string) returns (r: Reply)
      ensures id !in vehicles ==> r == Message(404, NotFound)
      ensures id in vehicles && vehicles[id].user != userId ==> r == Message(401, NotAuthorized)
      ensures id in vehicles && vehicles[id].user == userId ==> r == Document(200, id, vehicles[id])
    {
      if id !in vehicles {
        return Message(404, NotFound);
      }
      if vehicles[id].user != userId {
        return Message(401, NotAuthorized);
      }
      r := Document(200, id, vehicles[id]);
    }

    /**
     * `vehicle.save()` for a new document: 400 when validation fails or the
     * registration number is taken (the unique index), 201 with the stored
     * document otherwise.
     */
    method Insert(fields: map<string, Value>, owner: string, newId: string) returns (r: Reply)
      requires Valid() && newId !in vehicles
      modifies this
      ensures Valid()
      ensures Build(fields, owner).Invalid? ==> r == Message(400, InvalidData) && vehicles == old(vehicles)
      ensures Build(fields, owner).Valid? && RegistrationTaken(old(vehicles), newId, Build(fields, owner).vehicle.registrationNo) ==>
        r == Message(400, InvalidData) && vehicles == old(vehicles)
      ensures Build(fields, owner).Valid? && !RegistrationTaken(old(vehicles), newId, Build(fields, owner).vehicle.registrationNo) ==>
        r == Document(201, newId, Build(fields, owner).vehicle) && vehicles == old(vehicles)[newId := Build(fields, owner).vehicle]
    {
      var built := Build(fields, owner);
      if built.Invalid? {
        return Message(400, InvalidData);
      }
      var stored := Store(newId, built.vehicle);
      r := if stored then Document(201, newId, built.vehicle) else Message(400, InvalidData);
    }

    /** The write behind `save()`: refused when another vehicle holds the registration number. */
    method Store(id: string, v: Vehicle) returns (stored: bool)
      requires Valid() && WellFormed(v)
      modifies this
      ensures Valid()
      ensures stored <==> !RegistrationTaken(old(vehicles), id, v.registrationNo)
      ensures stored ==> vehicles == old(vehicles)[id := v]
      ensures !stored ==> vehicles == old(vehicles)
    {
      if exists other :: other in vehicles && other != id && vehicles[other].registrationNo == v.registrationNo {
        return false;
      }
      WriteKeepsUnique(vehicles, id, v);
      vehicles := vehicles[id := v];
      stored := true;
    }

    /** `createVehicle` as written: only name, year, location and imageUrl reach the document, so it always answers 400. */
    method CreateVehicleAsWritten(userId: string, body: map<string, Value>, newId: string) returns (r: Reply)
      requires Valid() && newId !in vehicles
      modifies this
      ensures Valid()
      ensures r == Message(400, InvalidData) && vehicles == old(vehicles)
    {
      AsWrittenCreateRejects(body, userId);
      r := Insert(Pick(body, AsWrittenPaths), userId, newId);
    }

    /** `createVehicle` taking every schema path the form supplies, owned by the requester. */
    method CreateVehicle(userId: string, body: map<string, Value>, newId: string) returns (r: Reply)
      requires Valid() && newId !in vehicles
      modifies this
      ensures Valid()
      ensures var built := Build(Pick(body, CreatePaths), userId);
        && (built.Invalid? ==> r == Message(400, InvalidData) && vehicles == old(vehicles))
        && (built.Valid? && RegistrationTaken(old(vehicles), newId, built.vehicle.registrationNo) ==>
              r == Message(400, InvalidData) && vehicles == old(vehicles))
        && (built.Valid? && !RegistrationTaken(old(vehicles), newId, built.vehicle.registrationNo) ==>
              r == Document(201, newId, built.vehicle) && vehicles == old(vehicles)[newId := built.vehicle]
              && built.vehicle.user == userId)
    {
      r := Insert(Pick(body, CreatePaths), userId, newId);
    }

    /**
     * `updateVehicle`: 404 and 401 before any write; then the body's schema paths
     * are set, with 400 for a validation failure or a taken registration number,
     * and the updated document is returned. No other vehicle changes.
     */
    method UpdateVehicle(userId: string, id: string, body: map<string, Value>) returns (r: Reply)
      requires Valid()
      modifies this
      ensures Valid()
      ensures id !in old(vehicles) ==> r == Message(404, NotFound) && vehicles == old(vehicles)
      ensures id in old(vehicles) && old(vehicles)[id].user != userId ==>
        r == Message(401, NotAuthorized) && vehicles == old(vehicles)
      ensures id in old(vehicles) && old(vehicles)[id].user == userId ==>
        (var updated := ApplyUpdate(old(vehicles)[id], body);
         && (updated.Invalid? ==> r == Message(400, InvalidData) && vehicles == old(vehicles))
         && (updated.Valid? && RegistrationTaken(old(vehicles), id, updated.vehicle.registrationNo) ==>
               r == Message(400, InvalidData) && vehicles == old(vehicles))
         && (updated.Valid? && !RegistrationTaken(old(vehicles), id, updated.vehicle.registrationNo) ==>
               r == Document(200, id, updated.vehicle) && vehicles == old(vehicles)[id := updated.vehicle]))
    {
      if id !in vehicles {
        return Message(404, NotFound);
      }
      if vehicles[id].user != userId {
        return Message(401, NotAuthorized);
      }
      var updated := ApplyUpdate(vehicles[id], body);
      if updated.Invalid? {
        return Message(400, InvalidData);
      }
      var stored := Store(id, updated.vehicle);
      r := if stored then Document(200, id, updated.vehicle) else Message(400, InvalidData);
    }

    /** `deleteVehicle`: 404 and 401 as for reads; otherwise only that vehicle is removed. */
    method DeleteVehicle(userId: string, id: string) returns (r: Reply)
      requires Valid()
      modifies this
      ensures Valid()
      ensures id !in old(vehicles) ==> r == Message(404, NotFound) && vehicles == old(vehicles)
      ensures id in old(vehicles) && old(vehicles)[id].user != userId ==>
        r == Message(401, NotAuthorized) && vehicles == old(vehicles)
      ensures id in old(vehicles) && old(vehicles)[id].user == userId ==>
        r == Message(200, Removed) && vehicles == old(vehicles) - {id}
    {
      if id !in vehicles {
        return Message(404, NotFound);
      }
      if vehicles[id].user != userId {
        return Message(401, NotAuthorized);
      }
      vehicles := vehicles - {id};
      r := Message(200, Removed);
    }
  }
}
