/**
 * The cat gallery's pager: each load fetches one batch of `limit` cats and
 * either replaces the list (refresh) or appends to it (load more); a full
 * batch means more may follow. The fetched batch, or the failure, is an input.
 */
module CatsPager {
  import opened Wrappers
  import Cats

  /** The page size used when the hook is given none. */
  const DefaultLimit := 10
  const LoadFailedMessage := "Error al cargar gatos"

  /** How `CatService.getCats(limit)` settled. */
  datatype Batch = Fetched(cats: seq<Cats.Cat>) | Failed(message: string)

  /** The list after a successful load: the batch alone, or appended after the previous list. */
  function Page(prev: seq<Cats.Cat>, append: bool, batch: seq<Cats.Cat>): (r: seq<Cats.Cat>)
    ensures !append ==> r == batch
    ensures append ==> |r| == |prev| + |batch| && r[..|prev|] == prev && r[|prev|..] == batch
  {
    if append then prev + batch else batch
  }

  /** Loading more after loading more keeps every earlier cat, in order, before the new ones. */
  lemma LoadMoreTwice(prev: seq<Cats.Cat>, a: seq<Cats.Cat>, b: seq<Cats.Cat>)
    ensures Page(Page(prev, true, a), true, b) == prev + a + b
    ensures Page(Page(prev, true, a), false, b) == b
  {
  }

  /** The message a failed load shows. */
  function FailureMessage(message: string): (r: string)
    ensures r != ""
    ensures message != "" ==> r == message
    ensures message == "" ==> r == "Error al cargar gatos"
  {
    if message != "" then message else LoadFailedMessage
  }

  /** What the load's promise settles with: the new batch, or the error rethrown. */
  datatype Loaded = Returned(cats: seq<Cats.Cat>) | Rethrown(message: string)

  class Pager {
    const limit: int
    var cats: seq<Cats.Cat>
    var loading: bool
    var error: Option<string>
    var hasMore: bool

    /** The hook's first render: no cats, not loading, no error, more to load. */
    constructor (limit: Option<int>)
      ensures this.limit == if limit.Some? then limit.value else 10
      ensures cats == [] && !loading && error == None && hasMore
    {
      this.limit := if limit.Some? then limit.value else DefaultLimit;
      cats := [];
      loading := false;
      error := None;
      hasMore := true;
    }

    /** `loadCats` up to the await: raise `loading` and clear `error`; the list is untouched. */
    method Begin()
      modifies this
      ensures loading && error == None
      ensures cats == old(cats) && hasMore == old(hasMore)
    {
      loading := true;
      error := None;
    }

    /**
     * `loadCats` after `CatService.getCats` settles: on success replace or
     * extend the list, set `hasMore` to whether the batch was full and return
     * the batch; on failure keep the list, show the message and rethrow.
     */
    method Finish(append: bool, batch: Batch) returns (r: Loaded)
      modifies this
      ensures !loading
      ensures batch.Fetched? ==> cats == Page(old(cats), append, batch.cats)
      ensures batch.Fetched? ==> hasMore == (|batch.cats| == limit) && error == old(error)
      ensures batch.Fetched? ==> r == Returned(batch.cats)
      ensures batch.Failed? ==> cats == old(cats) && hasMore == old(hasMore)
      ensures batch.Failed? ==> error == Some(FailureMessage(batch.message))
      ensures batch.Failed? ==> r == Rethrown(batch.message)
    {
      match batch
      case Fetched(newCats) =>
        cats := if append then cats + newCats else newCats;
        hasMore := |newCats| == limit;
        loading := false;
        r := Returned(newCats);
      case Failed(message) =>
        error := Some(if message != "" then message else LoadFailedMessage);
        loading := false;
        r := Rethrown(message);
    }

    /** `loadCats(append)` run to completion. */
    method LoadCats(append: bool, batch: Batch) returns (r: Loaded)
      modifies this
      ensures !loading
      ensures batch.Fetched? ==> cats == Page(old(cats), append, batch.cats)
      ensures batch.Fetched? ==> hasMore == (|batch.cats| == limit) && error == None
      ensures batch.Fetched? ==> r == Returned(batch.cats)
      ensures batch.Failed? ==> cats == old(cats) && hasMore == old(hasMore)
      ensures batch.Failed? ==> error == Some(FailureMessage(batch.message))
      ensures batch.Failed? ==> r == Rethrown(batch.message)
    {
      Begin();
      r := Finish(append, batch);
    }

    /** `loadMore`: append the next batch. */
    method LoadMore(batch: Batch) returns (r: Loaded)
      modifies this
      ensures !loading
      ensures batch.Fetched? ==> |cats| == |old(cats)| + |batch.cats|
      ensures batch.Fetched? ==> cats[..|old(cats)|] == old(cats) && cats[|old(cats)|..] == batch.cats
      ensures batch.Fetched? ==> hasMore == (|batch.cats| == limit) && error == None
      ensures batch.Failed? ==> cats == old(cats) && hasMore == old(hasMore) && error == Some(FailureMessage(batch.message))
      ensures r == if batch.Fetched? then Returned(batch.cats) else Rethrown(batch.message)
    {
      r := LoadCats(true, batch);
    }

    /** `refresh`: replace the list with a new batch. */
    method Refresh(batch: Batch) returns (r: Loaded)
      modifies this
      ensures !loading
      ensures batch.Fetched? ==> cats == batch.cats && hasMore == (|batch.cats| == limit) && error == None
      ensures batch.Failed? ==> cats == old(cats) && hasMore == old(hasMore) && error == Some(FailureMessage(batch.message))
      ensures r == if batch.Fetched? then Returned(batch.cats) else Rethrown(batch.message)
    {
      r := LoadCats(false, batch);
    }
  }
}
