// The model catalog (coordinator/src/catalog.ts) as far as the pool protocol reads it.
module Catalog {
  import opened Options
  import opened Seqs

  // `required` and `maxPipelines` are the optional declarations of a catalog entry.
  datatype CatalogEntry = CatalogEntry(id: string, required: Option<int>, maxPipelines: Option<int>)

  type ModelCatalog = seq<CatalogEntry>

  function FindEntry(c: ModelCatalog, id: string): Option<CatalogEntry> {
    if c == [] then None else if c[0].id == id then Some(c[0]) else FindEntry(c[1..], id)
  }

  function RequiredNodeCount(c: ModelCatalog, id: string): int {
    match FindEntry(c, id)
    case Some(e) => (match e.required case Some(n) => n case None => 1)
    case None => 1
  }

  // A declaration that is not a whole number of at least one counts as absent.
  function MaxPipelines(c: ModelCatalog, id: string): (n: int)
    ensures n >= 1
  {
    match FindEntry(c, id)
    case Some(e) => (match e.maxPipelines case Some(n) => if n >= 1 then n else 1 case None => 1)
    case None => 1
  }

  function MultiPipelineModelIds(c: ModelCatalog): seq<string> {
    if c == [] then []
    else (if c[0].required.Some? && c[0].required.value > 1 then [c[0].id] else []) + MultiPipelineModelIds(c[1..])
  }

  ghost predicate DistinctIds(c: ModelCatalog) {
    forall i, j :: 0 <= i < j < |c| ==> c[i].id != c[j].id
  }

  // Whatever the request path is willing to assemble, the background loop also tracks.
  lemma {:induction false} MultiNodeModelsAreTracked(c: ModelCatalog, id: string)
    requires RequiredNodeCount(c, id) > 1
    ensures id in MultiPipelineModelIds(c)
  {
    if c[0].id != id {
      MultiNodeModelsAreTracked(c[1..], id);
    }
  }

  lemma {:induction false} TrackedIdsComeFromEntries(c: ModelCatalog, id: string)
    requires id in MultiPipelineModelIds(c)
    ensures exists i :: 0 <= i < |c| && c[i].id == id
  {
    if c[0].id != id {
      TrackedIdsComeFromEntries(c[1..], id);
      var i :| 0 <= i < |c[1..]| && c[1..][i].id == id;
      assert c[i + 1].id == id;
    }
  }

  // With distinct catalog ids the background loop visits every model at most once.
  lemma {:induction false} TrackedIdsAreDistinct(c: ModelCatalog)
    requires DistinctIds(c)
    ensures NoDup(MultiPipelineModelIds(c))
  {
    if c != [] {
      TrackedIdsAreDistinct(c[1..]);
      if c[0].id in MultiPipelineModelIds(c[1..]) {
        TrackedIdsComeFromEntries(c[1..], c[0].id);
      }
      NoDupCons(c[0].id, MultiPipelineModelIds(c[1..]));
    }
  }

  // What a declaration says counts: an entry's own node count and ceiling, if it declares usable ones, and one
  // otherwise; an unknown model needs one node and gets one pipeline.
  lemma {:induction false} DeclarationsCount(c: ModelCatalog, id: string)
    requires DistinctIds(c)
    ensures forall i :: 0 <= i < |c| && c[i].id == id ==>
              && RequiredNodeCount(c, id) == (if c[i].required.Some? then c[i].required.value else 1)
              && MaxPipelines(c, id)
                   == (if c[i].maxPipelines.Some? && c[i].maxPipelines.value >= 1 then c[i].maxPipelines.value else 1)
    ensures (forall i :: 0 <= i < |c| ==> c[i].id != id) ==> RequiredNodeCount(c, id) == 1 && MaxPipelines(c, id) == 1
  {
    if c != [] {
      var rest := c[1..];
      assert forall i :: 0 <= i < |rest| ==> rest[i] == c[i + 1];
      DeclarationsCount(rest, id);
      if c[0].id != id {
        assert FindEntry(c, id) == FindEntry(rest, id);
      }
    }
  }

  // The background loop visits exactly the models that declare a need for several nodes.
  lemma {:induction false} TrackedIff(c: ModelCatalog, id: string)
    ensures id in MultiPipelineModelIds(c)
       <==> exists i :: 0 <= i < |c| && c[i].id == id && c[i].required.Some? && c[i].required.value > 1
  {
    if c != [] {
      var rest := c[1..];
      TrackedIff(rest, id);
      if i :| 0 <= i < |c| && c[i].id == id && c[i].required.Some? && c[i].required.value > 1 {
        assert i > 0 ==> rest[i - 1] == c[i];
      }
      if i :| 0 <= i < |rest| && rest[i].id == id && rest[i].required.Some? && rest[i].required.value > 1 {
        assert c[i + 1] == rest[i];
      }
    }
  }
}
