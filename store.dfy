/** The hosted backend, reduced to the five tables the console reads and
    writes. Each request may succeed or fail; its answer is a parameter. */
module Store {
  import opened Common
  import opened Seqs

  /** A `profiles` row as the user-administration view reads it; every
      field but the two ids may be missing. */
  datatype Profile = Profile(
    id: Id,
    userId: Id,
    email: Option<string>,
    role: Option<string>,
    status: Option<string>)

  /** A `runners` row. */
  datatype Runner = Runner(
    id: Id,
    participantId: Option<string>,
    bibNumber: string,
    fullName: string,
    email: Option<string>,
    phone: Option<string>,
    category: Option<string>,
    raceDistance: Option<string>)

  /** The client-supplied columns of a `race_kits` row; `contents` is opaque
      structured data, kept as a list of entries. */
  datatype KitFields = KitFields(kitNumber: string, runnerId: Id, status: string, contents: seq<string>)

  /** The client-supplied columns of a `representatives` row. */
  datatype RepresentativeFields = RepresentativeFields(
    fullName: string,
    idNumber: string,
    idType: string,
    phone: Option<string>,
    relationship: Option<string>)

  /** The client-supplied columns of a `kit_collections` row. */
  datatype CollectionFields = CollectionFields(
    raceKitId: Id,
    collectedByUserId: Id,
    representativeId: Option<Id>,
    collectionType: string,
    notes: Option<string>)

  /** A row the store holds: the inserted columns under the id the store
      assigned. Server-side timestamps are not modelled. */
  datatype Stored<T> = Stored(id: Id, fields: T)

  /** The rows a batch insert creates: item `i` gets id `first + i`. */
  function Stamp<T>(items: seq<T>, first: Id): (r: seq<Stored<T>>)
    ensures |r| == |items|
    ensures forall i :: 0 <= i < |items| ==> r[i] == Stored(first + i, items[i])
  {
    if items == [] then [] else [Stored(first, items[0])] + Stamp(items[1..], first + 1)
  }

  /** `update({ status }).eq('user_id', userId)` on the profile rows. */
  function WithStatus(rows: seq<Profile>, userId: Id, status: string): (r: seq<Profile>)
    ensures |r| == |rows|
    ensures forall i :: 0 <= i < |rows| ==>
              r[i] == if rows[i].userId == userId then rows[i].(status := Some(status)) else rows[i]
  {
    if rows == [] then []
    else
      var head := if rows[0].userId == userId then rows[0].(status := Some(status)) else rows[0];
      [head] + WithStatus(rows[1..], userId, status)
  }

  /** `delete().eq('user_id', userId)` on the profile rows: the rows kept. */
  function WithoutUser(rows: seq<Profile>, userId: Id): (r: seq<Profile>)
    ensures IsSubsequence(r, rows)
    ensures forall p: Profile :: p in r ==> p.userId != userId
    ensures forall p: Profile :: p.userId != userId ==> multiset(r)[p] == multiset(rows)[p]
  {
    Filter(rows, (p: Profile) => p.userId != userId)
  }

  /** The backend's tables. `nextId` stands for the store's id generator:
      every id it hands out is above every id already in the written tables. */
  class Tables {
    var profiles: seq<Profile>
    var runners: seq<Runner>
    var raceKits: seq<Stored<KitFields>>
    var representatives: seq<Stored<RepresentativeFields>>
    var kitCollections: seq<Stored<CollectionFields>>
    var nextId: Id

    ghost predicate Valid()
      reads this
    {
      && (forall k :: k in raceKits ==> k.id < nextId)
      && (forall r :: r in representatives ==> r.id < nextId)
      && (forall c :: c in kitCollections ==> c.id < nextId)
    }

    constructor (profiles: seq<Profile>, runners: seq<Runner>)
      ensures Valid()
      ensures this.profiles == profiles && this.runners == runners
      ensures raceKits == [] && representatives == [] && kitCollections == []
    {
      this.profiles := profiles;
      this.runners := runners;
      raceKits, representatives, kitCollections := [], [], [];
      nextId := 0;
    }

    /** `insert(rep).select().single()` on `representatives`: on success the
        new row's fresh id is returned. */
    method InsertRepresentative(rep: RepresentativeFields, reply: Reply) returns (id: Option<Id>)
      requires Valid()
      modifies this
      ensures Valid()
      ensures id.Some? <==> reply == Ok
      ensures id.Some? ==> forall r :: r in old(representatives) ==> r.id != id.value
      ensures representatives == old(representatives) + (if id.Some? then [Stored(id.value, rep)] else [])
      ensures nextId >= old(nextId)
      ensures profiles == old(profiles) && runners == old(runners)
      ensures raceKits == old(raceKits) && kitCollections == old(kitCollections)
    {
      if reply == Ok {
        id := Some(nextId);
        representatives := representatives + [Stored(nextId, rep)];
        nextId := nextId + 1;
      } else {
        id := None;
      }
    }

    /** `insert(collection)` on `kit_collections`. */
    method InsertCollection(c: CollectionFields, reply: Reply) returns (ok: bool)
      requires Valid()
      modifies this
      ensures Valid()
      ensures ok <==> reply == Ok
      ensures ok ==> kitCollections == old(kitCollections) + [Stored(old(nextId), c)]
      ensures !ok ==> kitCollections == old(kitCollections)
      ensures nextId >= old(nextId)
      ensures profiles == old(profiles) && runners == old(runners)
      ensures raceKits == old(raceKits) && representatives == old(representatives)
    {
      ok := reply == Ok;
      if ok {
        kitCollections := kitCollections + [Stored(nextId, c)];
        nextId := nextId + 1;
      }
    }

    /** `insert(kits)` on `race_kits`: one request for the whole batch. */
    method InsertRaceKits(kits: seq<KitFields>, reply: Reply) returns (ok: bool)
      requires Valid()
      modifies this
      ensures Valid()
      ensures ok <==> reply == Ok
      ensures ok ==> raceKits == old(raceKits) + Stamp(kits, old(nextId))
      ensures !ok ==> raceKits == old(raceKits)
      ensures nextId >= old(nextId)
      ensures profiles == old(profiles) && runners == old(runners)
      ensures representatives == old(representatives) && kitCollections == old(kitCollections)
    {
      ok := reply == Ok;
      if ok {
        var added := Stamp(kits, nextId);
        forall k | k in added ensures k.id < nextId + |kits| {
          var i :| 0 <= i < |added| && added[i] == k;
        }
        raceKits := raceKits + added;
        nextId := nextId + |kits|;
      }
    }

    /** `update({ status }).eq('user_id', userId)` on `profiles`. */
    method UpdateStatus(userId: Id, status: string, reply: Reply) returns (ok: bool)
      requires Valid()
      modifies this
      ensures Valid()
      ensures ok <==> reply == Ok
      ensures profiles == if ok then WithStatus(old(profiles), userId, status) else old(profiles)
      ensures nextId == old(nextId) && runners == old(runners) && raceKits == old(raceKits)
      ensures representatives == old(representatives) && kitCollections == old(kitCollections)
    {
      ok := reply == Ok;
      if ok {
        profiles := WithStatus(profiles, userId, status);
      }
    }

    /** `delete().eq('user_id', userId)` on `profiles`. */
    method DeleteProfiles(userId: Id, reply: Reply) returns (ok: bool)
      requires Valid()
      modifies this
      ensures Valid()
      ensures ok <==> reply == Ok
      ensures profiles == if ok then WithoutUser(old(profiles), userId) else old(profiles)
      ensures nextId == old(nextId) && runners == old(runners) && raceKits == old(raceKits)
      ensures representatives == old(representatives) && kitCollections == old(kitCollections)
    {
      ok := reply == Ok;
      if ok {
        profiles := WithoutUser(profiles, userId);
      }
    }
  }
}
