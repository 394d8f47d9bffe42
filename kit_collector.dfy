/** The kit-collection view: the kit list with its search box, the
    collection dialog and the guarded two-insert collection flow. */
module KitCollector {
  import opened Common
  import opened Seqs
  import opened Text
  import opened Store

  /** The runner columns a kit is listed with (the `runners (...)` embed). */
  datatype KitRunner = KitRunner(
    id: Id,
    participantId: Option<string>,
    fullName: string,
    bibNumber: string,
    category: Option<string>,
    raceDistance: Option<string>)

  /** A listed kit; `runner` is null when no runner row has the kit's `runner_id`. */
  datatype Kit = Kit(id: Id, kitNumber: string, status: string, runnerId: Id, runner: Option<KitRunner>)

  /** The columns of a runner row that the kit list embeds. */
  function RunnerColumns(x: Runner): KitRunner
  {
    KitRunner(x.id, x.participantId, x.fullName, x.bibNumber, x.category, x.raceDistance)
  }

  /** The embedded runner of a kit: the runner row whose id is `runnerId`. */
  function JoinedRunner(runnerId: Id, runners: seq<Runner>): (r: Option<KitRunner>)
    ensures r.None? <==> forall x :: x in runners ==> x.id != runnerId
    ensures r.Some? ==> exists x :: x in runners && x.id == runnerId && r.value == RunnerColumns(x)
  {
    if runners == [] then None
    else if runners[0].id == runnerId then Some(RunnerColumns(runners[0]))
    else JoinedRunner(runnerId, runners[1..])
  }

  /** `select('*, runners (...)')` on `race_kits`: every kit row with its
      runner, in table order (the server-side sort is not modelled). */
  function JoinRunners(rows: seq<Stored<KitFields>>, runners: seq<Runner>): (r: seq<Kit>)
    ensures |r| == |rows|
    ensures forall i :: 0 <= i < |rows| ==>
              r[i].id == rows[i].id && r[i].kitNumber == rows[i].fields.kitNumber &&
              r[i].status == rows[i].fields.status && r[i].runnerId == rows[i].fields.runnerId &&
              r[i].runner == JoinedRunner(rows[i].fields.runnerId, runners)
  {
    if rows == [] then []
    else
      var f := rows[0].fields;
      [Kit(rows[0].id, f.kitNumber, f.status, f.runnerId, JoinedRunner(f.runnerId, runners))]
        + JoinRunners(rows[1..], runners)
  }

  /** The search predicate of the kit list: the lower-cased term occurs in
      the kit number, in the runner's name, or in a non-empty participant id. */
  predicate KitMatches(k: Kit, term: string)
  {
    var t := Lower(term);
    || Contains(Lower(k.kitNumber), t)
    || (k.runner.Some? && Contains(Lower(k.runner.value.fullName), t))
    || (k.runner.Some? && OrDefault(k.runner.value.participantId, "") != ""
        && Contains(Lower(k.runner.value.participantId.value), t))
  }

  /** `filteredKits`: the listed kits that match the search term, in order. */
  function FilteredKits(kits: seq<Kit>, term: string): (r: seq<Kit>)
    ensures IsSubsequence(r, kits)
    ensures forall k :: k in r <==> k in kits && KitMatches(k, term)
    ensures forall k :: multiset(r)[k] == if KitMatches(k, term) then multiset(kits)[k] else 0
  {
    Filter(kits, k => KitMatches(k, term))
  }

  /** An empty search box lists every kit. */
  lemma EmptySearchKeepsEveryKit(kits: seq<Kit>)
    ensures FilteredKits(kits, "") == kits
  {
    forall k | k in kits ensures KitMatches(k, "") {
      EverythingContainsEmpty(Lower(k.kitNumber));
    }
    FilterKeepsAll(kits, k => KitMatches(k, ""));
  }

  /** The search is insensitive to the case of the term. */
  lemma KitSearchIgnoresTermCase(kits: seq<Kit>, term: string)
    ensures FilteredKits(kits, term) == FilteredKits(kits, Lower(term))
  {
    LowerIdempotent(term);
    FilterCongruent(kits, k => KitMatches(k, term), k => KitMatches(k, Lower(term)));
  }

  /** A kit without a runner can match only on its kit number. */
  lemma KitWithoutRunnerMatchesOnNumber(k: Kit, term: string)
    requires k.runner.None?
    ensures KitMatches(k, term) <==> Contains(Lower(k.kitNumber), Lower(term))
  {
  }

  /** The two collection kinds and the `collection_type` text stored for each. */
  datatype CollectionType = Self | ByRepresentative
  {
    function Name(): string
    {
      match this
      case Self => "self"
      case ByRepresentative => "representative"
    }
  }

  /** The representative sub-form of the collection dialog. */
  datatype RepForm = RepForm(fullName: string, idNumber: string, idType: string, phone: string, relationship: string)

  /** The sub-form as the dialog opens it. */
  const BlankRepForm := RepForm("", "", "ic", "", "")

  /** A representative collection needs a name and an id number. */
  predicate RepresentativeComplete(f: RepForm)
  {
    f.fullName != "" && f.idNumber != ""
  }

  /** The `representatives` row inserted from the sub-form. */
  function RepresentativeRow(f: RepForm): (r: RepresentativeFields)
    ensures r.fullName == f.fullName && r.idNumber == f.idNumber && r.idType == f.idType
    ensures r.phone.None? <==> f.phone == ""
    ensures r.relationship.None? <==> f.relationship == ""
    ensures r.phone.Some? ==> r.phone.value == f.phone
    ensures r.relationship.Some? ==> r.relationship.value == f.relationship
  {
    RepresentativeFields(f.fullName, f.idNumber, f.idType, NullIfBlank(f.phone), NullIfBlank(f.relationship))
  }

  /** The `kit_collections` row recorded for a kit. */
  function CollectionRecord(kitId: Id, userId: Id, t: CollectionType, repId: Option<Id>, notes: string): (c: CollectionFields)
    ensures c.raceKitId == kitId && c.collectedByUserId == userId && c.representativeId == repId
    ensures c.collectionType == (if t == Self then "self" else "representative")
    ensures c.notes.None? <==> notes == ""
    ensures c.notes.Some? ==> c.notes.value == notes
  {
    CollectionFields(kitId, userId, repId, t.Name(), NullIfBlank(notes))
  }

  /** `after` is `before` with exactly one row appended, holding `fields`. */
  predicate AppendedOne<T(==)>(before: seq<Stored<T>>, after: seq<Stored<T>>, fields: T)
  {
    |after| == |before| + 1 && after[..|before|] == before && after[|before|].fields == fields
  }

  /** What a kit card offers: the collect button, disabled while that kit is
      being collected, or the "Collected" badge. */
  datatype CollectControl = CollectedBadge | CollectEnabled | CollectDisabled

  function CollectControlFor(k: Kit, collectingKit: Option<Id>): (c: CollectControl)
    ensures c != CollectedBadge <==> k.status == "pending"
    ensures c == CollectDisabled <==> k.status == "pending" && collectingKit == Some(k.id)
  {
    if k.status != "pending" then CollectedBadge
    else if collectingKit == Some(k.id) then CollectDisabled
    else CollectEnabled
  }

  /** Which exit `collectKit` took; each stands for the message it shows. */
  datatype CollectOutcome =
    | NoKitSelected
    | MissingRepresentativeDetails
    | NotLoggedIn
    | RepresentativeFailed
    | RecordFailed
    | Collected
  {
    /** An exit taken before any request to the store. */
    predicate BeforeAnyWrite()
    {
      NoKitSelected? || MissingRepresentativeDetails? || NotLoggedIn?
    }

    /** An exit taken before the busy marker is set. */
    predicate BeforeBusy()
    {
      NoKitSelected? || MissingRepresentativeDetails?
    }
  }

  /** The two inserts of a collection, for a validated form and a known
      user: the representative row when there is one, then the collection
      record. A failed representative insert stops before the record. */
  method RecordCollection(db: Tables, kitId: Id, userId: Id, t: CollectionType, f: RepForm, notes: string,
                          repReply: Reply, recordReply: Reply)
    returns (outcome: CollectOutcome, repId: Option<Id>)
    requires db.Valid()
    modifies db
    ensures db.Valid()
    ensures !outcome.BeforeAnyWrite()
    ensures db.raceKits == old(db.raceKits) && db.runners == old(db.runners) && db.profiles == old(db.profiles)
    ensures db.representatives == old(db.representatives) + (if repId.Some? then [Stored(repId.value, RepresentativeRow(f))] else [])
    ensures repId.Some? ==> t == ByRepresentative && forall r :: r in old(db.representatives) ==> r.id != repId.value
    ensures outcome == RepresentativeFailed <==> t == ByRepresentative && repReply != Ok
    ensures (outcome == RecordFailed || outcome == Collected) ==> (repId.None? <==> t == Self)
    ensures outcome == RepresentativeFailed ==> repId.None?
    ensures outcome == Collected <==> (t == Self || repReply == Ok) && recordReply == Ok
    ensures t == ByRepresentative && repReply == Ok ==> repId.Some?
    ensures outcome == Collected ==> AppendedOne(old(db.kitCollections), db.kitCollections,
                                                 CollectionRecord(kitId, userId, t, repId, notes))
    ensures outcome != Collected ==> db.kitCollections == old(db.kitCollections)
  {
    repId := None;
    if t == ByRepresentative {
      repId := db.InsertRepresentative(RepresentativeRow(f), repReply);
      if repId.None? {
        return RepresentativeFailed, repId;
      }
    }
    var recorded := db.InsertCollection(CollectionRecord(kitId, userId, t, repId, notes), recordReply);
    outcome := if recorded then Collected else RecordFailed;
  }

  /** The state of the kit-collection view. */
  class KitCollectorView {
    var raceKits: seq<Kit>
    var loading: bool
    var searchTerm: string
    var collectingKit: Option<Id>
    var dialogOpen: bool
    var selectedKit: Option<Kit>
    var collectionType: CollectionType
    var rep: RepForm
    var notes: string

    constructor ()
      ensures raceKits == [] && loading && searchTerm == "" && collectingKit == None
      ensures !dialogOpen && selectedKit == None && collectionType == Self
      ensures rep == BlankRepForm && notes == ""
    {
      raceKits, loading, searchTerm, collectingKit := [], true, "", None;
      dialogOpen, selectedKit, collectionType := false, None, Self;
      rep, notes := BlankRepForm, "";
    }

    /** `fetchRaceKits`: replace the list on success, keep it on failure. */
    method FetchRaceKits(db: Tables, reply: Reply)
      modifies this
      ensures raceKits == if reply == Ok then JoinRunners(db.raceKits, db.runners) else old(raceKits)
      ensures !loading
      ensures searchTerm == old(searchTerm) && collectingKit == old(collectingKit) && dialogOpen == old(dialogOpen)
      ensures selectedKit == old(selectedKit) && collectionType == old(collectionType)
      ensures rep == old(rep) && notes == old(notes)
    {
      if reply == Ok {
        raceKits := JoinRunners(db.raceKits, db.runners);
      }
      loading := false;
    }

    /** `openCollectionDialog`: select the kit and reset the form, whatever
        it held before. */
    method OpenCollectionDialog(kit: Kit)
      modifies this
      ensures selectedKit == Some(kit) && collectionType == Self
      ensures rep == BlankRepForm && notes == "" && dialogOpen
      ensures raceKits == old(raceKits) && loading == old(loading)
      ensures searchTerm == old(searchTerm) && collectingKit == old(collectingKit)
    {
      selectedKit := Some(kit);
      collectionType := Self;
      rep := BlankRepForm;
      notes := "";
      dialogOpen := true;
    }

    /** The part of `collectKit` past its guards: the inserts, then on
        success the dialog closes and the list reloads. */
    method Submit(db: Tables, kitId: Id, userId: Id, repReply: Reply, recordReply: Reply, refetch: Reply)
      returns (outcome: CollectOutcome, repId: Option<Id>)
      requires db.Valid()
      modifies this, db
      ensures db.Valid()
      ensures selectedKit == old(selectedKit) && collectionType == old(collectionType) && collectingKit == old(collectingKit)
      ensures rep == old(rep) && notes == old(notes) && searchTerm == old(searchTerm)
      ensures !outcome.BeforeAnyWrite()
      ensures db.raceKits == old(db.raceKits) && db.runners == old(db.runners) && db.profiles == old(db.profiles)
      ensures db.representatives == old(db.representatives) + (if repId.Some? then [Stored(repId.value, RepresentativeRow(rep))] else [])
      ensures repId.Some? ==> collectionType == ByRepresentative && forall r :: r in old(db.representatives) ==> r.id != repId.value
      ensures outcome == RepresentativeFailed <==> collectionType == ByRepresentative && repReply != Ok
      ensures (outcome == RecordFailed || outcome == Collected) ==> (repId.None? <==> collectionType == Self)
      ensures outcome == RepresentativeFailed ==> repId.None?
      ensures outcome == Collected <==> (collectionType == Self || repReply == Ok) && recordReply == Ok
      ensures outcome == Collected ==> AppendedOne(old(db.kitCollections), db.kitCollections,
                                                   CollectionRecord(kitId, userId, collectionType, repId, notes))
      ensures outcome != Collected ==> db.kitCollections == old(db.kitCollections)
      ensures dialogOpen == (if outcome == Collected then false else old(dialogOpen))
      ensures outcome == Collected ==>
                raceKits == (if refetch == Ok then JoinRunners(db.raceKits, db.runners) else old(raceKits)) && !loading
      ensures outcome != Collected ==> raceKits == old(raceKits) && loading == old(loading)
    {
      outcome, repId := RecordCollection(db, kitId, userId, collectionType, rep, notes, repReply, recordReply);
      if outcome == Collected {
        dialogOpen := false;
        FetchRaceKits(db, refetch);
      }
    }

    /** `collectKit`: validate, require a user, insert the representative if
        there is one, then insert the collection record. `user` is the
        identity the auth provider reports; each reply is the backend's
        answer to the matching request, `refetch` the answer to the list
        reload issued after success. `repId` is the id of the representative
        row this call created, if any. */
    method CollectKit(db: Tables, user: Option<Id>, repReply: Reply, recordReply: Reply, refetch: Reply)
      returns (outcome: CollectOutcome, repId: Option<Id>)
      requires db.Valid()
      modifies this, db
      ensures db.Valid()
      // the dialog's form is read, never written
      ensures selectedKit == old(selectedKit) && collectionType == old(collectionType)
      ensures rep == old(rep) && notes == old(notes) && searchTerm == old(searchTerm)
      // the client never writes race_kits, runners or profiles
      ensures db.raceKits == old(db.raceKits) && db.runners == old(db.runners) && db.profiles == old(db.profiles)
      // the guards, in order
      ensures selectedKit.None? <==> outcome == NoKitSelected
      ensures outcome == MissingRepresentativeDetails <==>
                selectedKit.Some? && collectionType == ByRepresentative && !RepresentativeComplete(rep)
      ensures outcome == NotLoggedIn <==>
                selectedKit.Some? && (collectionType == Self || RepresentativeComplete(rep)) && user.None?
      // past the guards, the outcome follows the store's answers
      ensures outcome == RepresentativeFailed <==>
                selectedKit.Some? && collectionType == ByRepresentative && RepresentativeComplete(rep)
                && user.Some? && repReply != Ok
      ensures outcome == Collected <==>
                selectedKit.Some? && user.Some?
                && (collectionType == Self || (RepresentativeComplete(rep) && repReply == Ok)) && recordReply == Ok
      // an early exit writes nothing
      ensures outcome.BeforeAnyWrite() ==>
                db.representatives == old(db.representatives) && db.kitCollections == old(db.kitCollections)
      // the busy marker is set only past validation and cleared on every later exit
      ensures outcome.BeforeBusy() ==> collectingKit == old(collectingKit)
      ensures !outcome.BeforeBusy() ==> collectingKit == None
      // at most one representative row, and only for a representative collection
      ensures db.representatives == old(db.representatives) + (if repId.Some? then [Stored(repId.value, RepresentativeRow(rep))] else [])
      ensures repId.Some? ==> collectionType == ByRepresentative && forall r :: r in old(db.representatives) ==> r.id != repId.value
      ensures (outcome == RecordFailed || outcome == Collected) ==> (repId.None? <==> collectionType == Self)
      // a failed representative insert records no collection
      ensures outcome == RepresentativeFailed ==> repId.None? && db.kitCollections == old(db.kitCollections)
      ensures outcome == RecordFailed ==> db.kitCollections == old(db.kitCollections)
      // success appends exactly one collection record
      ensures outcome == Collected ==>
                && user.Some? && selectedKit.Some?
                && AppendedOne(old(db.kitCollections), db.kitCollections,
                               CollectionRecord(selectedKit.value.id, user.value, collectionType, repId, notes))
      // the dialog closes and the list reloads only on success
      ensures dialogOpen == (if outcome == Collected then false else old(dialogOpen))
      ensures outcome == Collected ==>
                raceKits == (if refetch == Ok then JoinRunners(db.raceKits, db.runners) else old(raceKits)) && !loading
      ensures outcome != Collected ==> raceKits == old(raceKits) && loading == old(loading)
    {
      repId := None;
      if selectedKit.None? {
        return NoKitSelected, repId;
      }
      var kit := selectedKit.value;
      if collectionType == ByRepresentative && !RepresentativeComplete(rep) {
        return MissingRepresentativeDetails, repId;
      }
      collectingKit := Some(kit.id);
      if user.None? {
        outcome := NotLoggedIn;
      } else {
        outcome, repId := Submit(db, kit.id, user.value, repReply, recordReply, refetch);
      }
      collectingKit := None;
    }
  }
}
