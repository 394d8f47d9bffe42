/** The runner-registry view: the runner list with its search box and the
    bulk generation of one pending kit per loaded runner. */
module RunnerManager {
  import opened Common
  import opened Seqs
  import opened Text
  import opened Store
  import KitCollector

  /** The search predicate of the runner list: the lower-cased term occurs
      in the name, the bib number or a non-empty participant id. */
  predicate RunnerMatches(x: Runner, term: string)
  {
    var t := Lower(term);
    || Contains(Lower(x.fullName), t)
    || Contains(Lower(x.bibNumber), t)
    || (OrDefault(x.participantId, "") != "" && Contains(Lower(x.participantId.value), t))
  }

  /** `filteredRunners`: the loaded runners that match the term, in order. */
  function FilteredRunners(runners: seq<Runner>, term: string): (r: seq<Runner>)
    ensures IsSubsequence(r, runners)
    ensures forall x :: x in r <==> x in runners && RunnerMatches(x, term)
    ensures forall x :: multiset(r)[x] == if RunnerMatches(x, term) then multiset(runners)[x] else 0
  {
    Filter(runners, x => RunnerMatches(x, term))
  }

  /** An empty search box lists every runner. */
  lemma EmptySearchKeepsEveryRunner(runners: seq<Runner>)
    ensures FilteredRunners(runners, "") == runners
  {
    forall x | x in runners ensures RunnerMatches(x, "") {
      EverythingContainsEmpty(Lower(x.fullName));
    }
    FilterKeepsAll(runners, x => RunnerMatches(x, ""));
  }

  /** The search is insensitive to the case of the term. */
  lemma RunnerSearchIgnoresTermCase(runners: seq<Runner>, term: string)
    ensures FilteredRunners(runners, term) == FilteredRunners(runners, Lower(term))
  {
    LowerIdempotent(term);
    FilterCongruent(runners, x => RunnerMatches(x, term), x => RunnerMatches(x, Lower(term)));
  }

  /** The kit generated for one runner: numbered by its bib, pending, empty. */
  function KitFor(x: Runner): (k: KitFields)
    ensures k.kitNumber == x.bibNumber && k.runnerId == x.id
    ensures k.status == "pending" && k.contents == []
  {
    KitFields(x.bibNumber, x.id, "pending", [])
  }

  /** `kitsToCreate`: the kits for the runners, one for one and in order. */
  function KitsToCreate(runners: seq<Runner>): (r: seq<KitFields>)
    ensures |r| == |runners|
    ensures forall i :: 0 <= i < |runners| ==> r[i] == KitFor(runners[i])
  {
    if runners == [] then []
    else [KitFor(runners[0])] + KitsToCreate(runners[1..])
  }

  /** Generating kits for two runner lists is generating them for each. */
  lemma KitsToCreateAppend(a: seq<Runner>, b: seq<Runner>)
    ensures KitsToCreate(a + b) == KitsToCreate(a) + KitsToCreate(b)
  {
    var l, r := KitsToCreate(a + b), KitsToCreate(a) + KitsToCreate(b);
    forall i | 0 <= i < |l| ensures l[i] == r[i] {
      if i < |a| {
        assert (a + b)[i] == a[i];
      } else {
        assert (a + b)[i] == b[i - |a|];
      }
    }
  }

  /** Every kit the batch creates is listed in the kit-collection view under
      its bib number, joined to a runner, with the collect button enabled. */
  lemma GeneratedKitsAreCollectable(runners: seq<Runner>, first: Id, i: nat)
    requires i < |runners|
    ensures var kit := KitCollector.JoinRunners([Stamp(KitsToCreate(runners), first)[i]], runners)[0];
            && kit.kitNumber == runners[i].bibNumber
            && kit.runner.Some? && kit.runner.value.id == runners[i].id
            && KitCollector.CollectControlFor(kit, None) == KitCollector.CollectEnabled
  {
    var row := Stamp(KitsToCreate(runners), first)[i];
    assert row.fields.runnerId == runners[i].id;
    assert runners[i] in runners;
  }

  /** The state of the runner-registry view. */
  class RunnerManagerView {
    var runners: seq<Runner>
    var loading: bool
    var searchTerm: string

    constructor ()
      ensures runners == [] && loading && searchTerm == ""
    {
      runners, loading, searchTerm := [], true, "";
    }

    /** `fetchRunners`: replace the list on success, keep it on failure. */
    method FetchRunners(db: Tables, reply: Reply)
      modifies this
      ensures runners == if reply == Ok then db.runners else old(runners)
      ensures !loading && searchTerm == old(searchTerm)
    {
      if reply == Ok {
        runners := db.runners;
      }
      loading := false;
    }

    /** `createRaceKits`: one batch insert of a kit per loaded runner, the
        search box notwithstanding. `created` is the count the success
        message reports; nothing is reported on failure. */
    method CreateRaceKits(db: Tables, reply: Reply) returns (created: Option<nat>)
      requires db.Valid()
      modifies this, db
      ensures db.Valid()
      ensures created.Some? <==> reply == Ok
      ensures created.Some? ==> created.value == |runners|
      ensures db.raceKits == old(db.raceKits) + (if reply == Ok then Stamp(KitsToCreate(runners), old(db.nextId)) else [])
      ensures db.profiles == old(db.profiles) && db.runners == old(db.runners)
      ensures db.representatives == old(db.representatives) && db.kitCollections == old(db.kitCollections)
      ensures runners == old(runners) && searchTerm == old(searchTerm) && !loading
    {
      loading := true;
      var kits := KitsToCreate(runners);
      var ok := db.InsertRaceKits(kits, reply);
      created := if ok then Some(|kits|) else None;
      loading := false;
    }
  }
}
