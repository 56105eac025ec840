/**
  The record stores behind the pages: one collection per record kind, where
  `create` assigns a fresh Id and `update(id, fields)` overwrites the record
  with that Id. The backend service, its network calls and its field-name
  mapping are not part of this model; a store here is the collection itself.
 */
module Store {
  import opened Wrappers
  import opened Records
  import opened Seqs

  /** The most records one `getAll()` returns: its `pagingInfo` limit. */
  const PageLimit: nat := 100

  /**
    `getAll()`: the newest records, newest first, at most PageLimit of them.
    The services order by creation time, descending, and ask for the first
    page only, while a store keeps its records in creation order; so the
    listing a page loads is the store's order reversed, cut at the limit.
   */
  function Listing<T>(records: seq<T>): (listed: seq<T>)
    ensures |listed| == if |records| < PageLimit then |records| else PageLimit
    ensures forall i :: 0 <= i < |listed| ==> listed[i] == records[|records| - 1 - i]
  {
    var newestFirst := Reverse(records);
    var listed := Take(newestFirst, PageLimit);
    assert forall i :: 0 <= i < |listed| ==> listed[i] == newestFirst[i];
    listed
  }

  /**
    A record created last heads the listing, and the others follow in their
    former order; when the listing is full, its oldest record drops out.
   */
  lemma CreatedHeadsListing<T>(records: seq<T>, created: T)
    ensures Listing(records + [created]) == [created] + Take(Listing(records), PageLimit - 1)
    ensures |records| < PageLimit ==> Listing(records + [created]) == [created] + Listing(records)
  {
    var before, after := Listing(records), Listing(records + [created]);
    var kept := Take(before, PageLimit - 1);
    assert forall i :: 0 <= i < |kept| ==> kept[i] == before[i];
    assert forall i :: 1 <= i < |after| ==> after[i] == before[i - 1];
    assert after == [created] + kept;
  }

  class JobStore {
    var records: seq<Job>
    var nextId: int

    ghost predicate Valid()
      reads this
    {
      && (forall i :: 0 <= i < |records| ==> records[i].id < nextId)
      && (forall i, j :: 0 <= i < j < |records| ==> records[i].id != records[j].id)
    }

    constructor ()
      ensures Valid() && records == []
    {
      records, nextId := [], 1;
    }

    /** `create(fields)`: appends the record under a new Id and returns it. */
    method Create(fields: Job) returns (created: Job)
      requires Valid()
      modifies this
      ensures Valid()
      ensures created == fields.(id := old(nextId))
      ensures records == old(records) + [created]
    {
      created := fields.(id := nextId);
      records, nextId := records + [created], nextId + 1;
    }

    /**
      `update(id, fields)`: the record with that Id becomes `fields` (keeping
      the Id); every other record stays as it was. `found` is false, and
      nothing changes, when no record has that Id.
     */
    method Update(id: int, fields: Job) returns (found: bool)
      requires Valid()
      modifies this
      ensures Valid() && nextId == old(nextId)
      ensures found <==> exists i :: 0 <= i < |old(records)| && old(records)[i].id == id
      ensures |records| == |old(records)|
      ensures forall i :: 0 <= i < |records| ==>
        records[i] == if old(records)[i].id == id then fields.(id := id) else old(records)[i]
    {
      var k := FindIndex(records, (job: Job) => job.id == id);
      found := k.Some?;
      if found {
        records := records[k.value := fields.(id := id)];
      }
    }
  }

  class ApplicationStore {
    var records: seq<Application>
    var nextId: int

    ghost predicate Valid()
      reads this
    {
      && (forall i :: 0 <= i < |records| ==> records[i].id < nextId)
      && (forall i, j :: 0 <= i < j < |records| ==> records[i].id != records[j].id)
    }

    constructor ()
      ensures Valid() && records == []
    {
      records, nextId := [], 1;
    }

    /** `create(fields)`: appends the record under a new Id and returns it. */
    method Create(fields: Application) returns (created: Application)
      requires Valid()
      modifies this
      ensures Valid()
      ensures created == fields.(id := old(nextId))
      ensures records == old(records) + [created]
    {
      created := fields.(id := nextId);
      records, nextId := records + [created], nextId + 1;
    }

    /**
      `update(id, fields)`: the record with that Id becomes `fields` (keeping
      the Id); every other record stays as it was. `found` is false, and
      nothing changes, when no record has that Id.
     */
    method Update(id: int, fields: Application) returns (found: bool)
      requires Valid()
      modifies this
      ensures Valid() && nextId == old(nextId)
      ensures found <==> exists i :: 0 <= i < |old(records)| && old(records)[i].id == id
      ensures |records| == |old(records)|
      ensures forall i :: 0 <= i < |records| ==>
        records[i] == if old(records)[i].id == id then fields.(id := id) else old(records)[i]
    {
      var k := FindIndex(records, (app: Application) => app.id == id);
      found := k.Some?;
      if found {
        records := records[k.value := fields.(id := id)];
      }
    }
  }

  class UserStore {
    var records: seq<User>

    ghost predicate Valid()
      reads this
    {
      forall i, j :: 0 <= i < j < |records| ==> records[i].id != records[j].id
    }

    constructor (users: seq<User>)
      requires forall i, j :: 0 <= i < j < |users| ==> users[i].id != users[j].id
      ensures Valid() && records == users
    {
      records := users;
    }

    /**
      `update(id, fields)`: the record with that Id becomes `fields` (keeping
      the Id); every other record stays as it was.
     */
    method Update(id: int, fields: User) returns (found: bool)
      requires Valid()
      modifies this
      ensures Valid()
      ensures found <==> exists i :: 0 <= i < |old(records)| && old(records)[i].id == id
      ensures |records| == |old(records)|
      ensures forall i :: 0 <= i < |records| ==>
        records[i] == if old(records)[i].id == id then fields.(id := id) else old(records)[i]
    {
      var k := FindIndex(records, (user: User) => user.id == id);
      found := k.Some?;
      if found {
        records := records[k.value := fields.(id := id)];
      }
    }
  }
}
