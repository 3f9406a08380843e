/** `VectorDBRepository` of app/repositories/vector_db_repository.py: the
    points built from the splitter's documents and upserted into the
    configured collection, the search results handed back to the service, and
    the parameters a new collection is created with. The Qdrant server is a
    map from collection names to collections whose search ranking is an
    opaque function; the sentence embedder is an opaque function to vectors;
    `uuid.uuid4()` is an injective stream of ids. */
module VectorDb {
  import opened Wrappers
  import opened Values

  type Vector = seq<Float>

  datatype Distance = Cosine | Euclid | Dot | Manhattan

  datatype VectorParams = VectorParams(size: nat, distance: Distance)

  /** `PointStruct(id=..., vector=..., payload=...)`. */
  datatype PointStruct = PointStruct(id: string, vector: Vector, payload: Payload)

  datatype StoredPoint = StoredPoint(vector: Vector, payload: Payload)

  datatype Collection = Collection(params: VectorParams, points: map<string, StoredPoint>)

  /** `UpdateStatus`: with `wait=True` the server answers once the write is applied. */
  datatype UpdateStatus = Acknowledged | Completed

  /** A hit of `qdrant_client.search`. */
  datatype ScoredPoint = ScoredPoint(id: string, score: Float, payload: Payload)

  /** `{"score": hit.score, "payload": hit.payload}`. */
  datatype SearchRecord = SearchRecord(score: Float, payload: Payload)

  /** A search request: collection, vector name, query vector, limit. A
      bare query vector asks for the unnamed vector. */
  datatype SearchRequest = SearchRequest(collectionName: string, vectorName: string, vector: Vector, limit: int)

  /** The server's ranking of one collection's points against a query
      vector, under a limit; it may still refuse, say, a bad limit. */
  type Ranking = (Collection, Vector, int) -> Result<seq<ScoredPoint>, string>

  // ------------------------------------------------------------ payloads

  const PayloadKeys: set<string> :=
    {"text_id", "text", "category", "languages", "filetype", "last_modified", "coordinates", "page_number"}

  /** The metadata a document must carry for its payload to be built: the
      five plain keys, and a dict under "coordinates" holding "points". */
  predicate HasPayloadFields(metadata: map<string, Value>) {
    && "category" in metadata && "languages" in metadata && "filetype" in metadata
    && "last_modified" in metadata && "page_number" in metadata
    && "coordinates" in metadata && metadata["coordinates"].Obj?
    && "points" in metadata["coordinates"].fields
  }

  /** The payload dict of one document, read from `item.to_json()['kwargs']`
      with its entries evaluated in the order they are written: an empty
      metadata dict is not serialized, so "metadata" raises KeyError first;
      otherwise the first missing key raises KeyError, and a "coordinates"
      entry that is not a dict raises TypeError. */
  function BuildPayload(textId: string, doc: Document): (r: Result<Payload, string>)
    ensures r.Success? <==> HasPayloadFields(doc.metadata)
    ensures r.Success? ==>
              && r.value.Keys == PayloadKeys
              && r.value["text_id"] == Str(textId)
              && r.value["text"] == Str(doc.pageContent)
              && r.value["coordinates"] == doc.metadata["coordinates"].fields["points"]
              && forall k :: k in {"category", "languages", "filetype", "last_modified", "page_number"} ==>
                   r.value[k] == doc.metadata[k]
    ensures doc.metadata == map[] ==> r == Failure(KeyErrorText("metadata"))
    ensures doc.metadata != map[] && "category" !in doc.metadata ==> r == Failure(KeyErrorText("category"))
  {
    var kwargs := ToJson(doc)["kwargs"].fields;
    var text := kwargs["page_content"];
    var md :- Lookup(kwargs, "metadata");
    var category :- Subscript(md, "category");
    var languages :- Subscript(md, "languages");
    var filetype :- Subscript(md, "filetype");
    var lastModified :- Subscript(md, "last_modified");
    var coordinates :- Subscript(md, "coordinates");
    var points :- Subscript(coordinates, "points");
    var pageNumber :- Subscript(md, "page_number");
    Success(map[
      "text_id" := Str(textId),
      "text" := text,
      "category" := category,
      "languages" := languages,
      "filetype" := filetype,
      "last_modified" := lastModified,
      "coordinates" := points,
      "page_number" := pageNumber])
  }

  /** The point for one document under a given id. */
  function MakePoint(embed: string -> Vector, textId: string, doc: Document): Result<PointStruct, string> {
    var payload :- BuildPayload(textId, doc);
    Success(PointStruct(textId, embed(doc.pageContent), payload))
  }

  function PointOf(embed: string -> Vector): ((string, Document)) -> Result<PointStruct, string> {
    (item: (string, Document)) => MakePoint(embed, item.0, item.1)
  }

  /** Each document with the id `uuid.uuid4()` gives it, drawing from `first` on. */
  function WithIds(uuid4: nat -> string, first: nat, data: seq<Document>): (r: seq<(string, Document)>)
    ensures |r| == |data|
    ensures forall i :: 0 <= i < |r| ==> r[i] == (uuid4(first + i), data[i])
  {
    seq(|data|, i requires 0 <= i < |data| => (uuid4(first + i), data[i]))
  }

  /** The `points` list built from `data`, or the exception of the first
      document whose payload cannot be built. */
  function BuildPoints(embed: string -> Vector, uuid4: nat -> string, first: nat, data: seq<Document>): Result<seq<PointStruct>, string> {
    MapAll(WithIds(uuid4, first, data), PointOf(embed))
  }

  ghost predicate Injective(uuid4: nat -> string) {
    forall i, j :: i != j ==> uuid4(i) != uuid4(j)
  }

  /** The points are built exactly when every document carries the payload
      fields; then there is one point per document, in order, whose id is
      its payload's "text_id", whose vector embeds the page content, and
      whose "text" is that same page content. */
  lemma BuildPointsShape(embed: string -> Vector, uuid4: nat -> string, first: nat, data: seq<Document>)
    ensures BuildPoints(embed, uuid4, first, data).Success? <==>
              forall i :: 0 <= i < |data| ==> HasPayloadFields(data[i].metadata)
    ensures BuildPoints(embed, uuid4, first, data).Success? ==>
              var points := BuildPoints(embed, uuid4, first, data).value;
              && |points| == |data|
              && forall i :: 0 <= i < |points| ==>
                   && points[i].id == uuid4(first + i)
                   && points[i].payload.Keys == PayloadKeys
                   && "text_id" in points[i].payload && "text" in points[i].payload
                   && points[i].payload["text_id"] == Str(points[i].id)
                   && points[i].payload["text"] == Str(data[i].pageContent)
                   && points[i].vector == embed(data[i].pageContent)
  {
    var items := WithIds(uuid4, first, data);
    MapAllSuccess(items, PointOf(embed));
    assert forall i :: 0 <= i < |data| ==> items[i].1 == data[i];
  }

  /** With an injective id stream, no two points share an id. */
  lemma BuildPointsDistinctIds(embed: string -> Vector, uuid4: nat -> string, first: nat, data: seq<Document>)
    requires Injective(uuid4)
    requires BuildPoints(embed, uuid4, first, data).Success?
    ensures var points := BuildPoints(embed, uuid4, first, data).value;
            forall i, j :: 0 <= i < j < |points| ==> points[i].id != points[j].id
  {
    BuildPointsShape(embed, uuid4, first, data);
  }

  /** A document with metadata but no "category" stops the batch with that KeyError. */
  lemma MissingCategoryStopsBatch(embed: string -> Vector, uuid4: nat -> string, first: nat, data: seq<Document>, k: nat)
    requires k < |data| && data[k].metadata != map[] && "category" !in data[k].metadata
    requires forall i :: 0 <= i < k ==> HasPayloadFields(data[i].metadata)
    ensures BuildPoints(embed, uuid4, first, data) == Failure(KeyErrorText("category"))
  {
    var items := WithIds(uuid4, first, data);
    MapAllSuccess(items[..k], PointOf(embed));
    assert MapAll(items[..k], PointOf(embed)).Success?;
    MapAllStops(items, PointOf(embed), k, MapAll(items[..k], PointOf(embed)).value);
  }

  // ------------------------------------------------------------ the server

  /** Every stored vector has its collection's dimension. */
  ghost predicate Sized(collections: map<string, Collection>) {
    forall name, id :: name in collections && id in collections[name].points ==>
      |collections[name].points[id].vector| == collections[name].params.size
  }

  predicate AllSized(points: seq<PointStruct>, size: nat) {
    forall i :: 0 <= i < |points| ==> |points[i].vector| == size
  }

  /** The points written in order; a later point overwrites an earlier one with the same id. */
  function WritePoints(stored: map<string, StoredPoint>, points: seq<PointStruct>): (r: map<string, StoredPoint>)
    ensures forall id :: id in r <==> id in stored || exists i :: 0 <= i < |points| && points[i].id == id
    decreases |points|
  {
    if points == [] then stored
    else
      var p := points[|points| - 1];
      var r := WritePoints(stored, points[..|points| - 1])[p.id := StoredPoint(p.vector, p.payload)];
      assert forall i :: 0 <= i < |points| - 1 ==> points[..|points| - 1][i] == points[i];
      r
  }

  /** A point whose id no later point reuses keeps its vector and payload. */
  lemma {:induction false} WritePointsLastWins(stored: map<string, StoredPoint>, points: seq<PointStruct>, i: nat)
    requires i < |points|
    requires forall j :: i < j < |points| ==> points[j].id != points[i].id
    ensures points[i].id in WritePoints(stored, points)
    ensures WritePoints(stored, points)[points[i].id] == StoredPoint(points[i].vector, points[i].payload)
    decreases |points|
  {
    if i < |points| - 1 {
      var init := points[..|points| - 1];
      WritePointsLastWins(stored, init, i);
    }
  }

  /** Ids no point carries keep their stored entry. */
  lemma {:induction false} WritePointsOthers(stored: map<string, StoredPoint>, points: seq<PointStruct>, id: string)
    requires forall i :: 0 <= i < |points| ==> points[i].id != id
    ensures id in WritePoints(stored, points) <==> id in stored
    ensures id in stored ==> WritePoints(stored, points)[id] == stored[id]
    decreases |points|
  {
    if points != [] {
      WritePointsOthers(stored, points[..|points| - 1], id);
    }
  }

  lemma {:induction false} WritePointsSized(stored: map<string, StoredPoint>, points: seq<PointStruct>, size: nat)
    requires forall id :: id in stored ==> |stored[id].vector| == size
    requires AllSized(points, size)
    ensures forall id :: id in WritePoints(stored, points) ==> |WritePoints(stored, points)[id].vector| == size
    decreases |points|
  {
    if points != [] {
      WritePointsSized(stored, points[..|points| - 1], size);
    }
  }

  function StoreErrorText(kind: string, name: string): string {
    kind + ": " + name
  }

  /** What the server answers to an upsert into `name`. */
  function UpsertResult(collections: map<string, Collection>, name: string, points: seq<PointStruct>,
                        reported: UpdateStatus): Result<UpdateStatus, string> {
    if name !in collections then Failure(StoreErrorText("Collection not found", name))
    else if !AllSized(points, collections[name].params.size) then Failure(StoreErrorText("Wrong vector dimension", name))
    else Success(reported)
  }

  /** The collections after an upsert into `name`. */
  function UpsertState(collections: map<string, Collection>, name: string, points: seq<PointStruct>): map<string, Collection> {
    if name in collections && AllSized(points, collections[name].params.size) then
      collections[name := collections[name].(points := WritePoints(collections[name].points, points))]
    else collections
  }

  /** An upsert keeps every vector at its collection's dimension, leaves the
      other collections as they were, and on success stores every point of
      a batch with distinct ids under its id. */
  lemma UpsertEffect(collections: map<string, Collection>, name: string, points: seq<PointStruct>, reported: UpdateStatus)
    requires Sized(collections)
    requires forall i, j :: 0 <= i < j < |points| ==> points[i].id != points[j].id
    ensures Sized(UpsertState(collections, name, points))
    ensures UpsertState(collections, name, points).Keys == collections.Keys
    ensures forall other :: other in collections && other != name ==>
              UpsertState(collections, name, points)[other] == collections[other]
    ensures UpsertResult(collections, name, points, reported).Failure? ==>
              UpsertState(collections, name, points) == collections
    ensures UpsertResult(collections, name, points, reported).Success? ==>
              forall i :: 0 <= i < |points| ==>
                && points[i].id in UpsertState(collections, name, points)[name].points
                && UpsertState(collections, name, points)[name].points[points[i].id]
                     == StoredPoint(points[i].vector, points[i].payload)
    ensures UpsertResult(collections, name, points, reported).Success? ==>
              forall id :: id in collections[name].points && (forall i :: 0 <= i < |points| ==> points[i].id != id) ==>
                && id in UpsertState(collections, name, points)[name].points
                && UpsertState(collections, name, points)[name].points[id] == collections[name].points[id]
  {
    if name in collections && AllSized(points, collections[name].params.size) {
      var c := collections[name];
      WritePointsSized(c.points, points, c.params.size);
      forall i | 0 <= i < |points|
        ensures points[i].id in WritePoints(c.points, points)
        ensures WritePoints(c.points, points)[points[i].id] == StoredPoint(points[i].vector, points[i].payload)
      {
        WritePointsLastWins(c.points, points, i);
      }
      forall id | id in c.points && (forall i :: 0 <= i < |points| ==> points[i].id != id)
        ensures id in WritePoints(c.points, points) && WritePoints(c.points, points)[id] == c.points[id]
      {
        WritePointsOthers(c.points, points, id);
      }
    }
  }

  /** The name of a collection's only vector when it is configured with a
      single `VectorParams`, the one form `create_collection` uses here. */
  const UnnamedVector := ""

  /** What the server answers to a search: a missing collection, a vector
      name the collection does not have, or a query of the wrong dimension
      is refused; otherwise the collection is ranked. */
  function ServerSearch(collections: map<string, Collection>, ranking: Ranking, request: SearchRequest)
    : Result<seq<ScoredPoint>, string>
  {
    var name := request.collectionName;
    if name !in collections then Failure(StoreErrorText("Collection not found", name))
    else if request.vectorName != UnnamedVector then Failure(StoreErrorText("Not existing vector name", request.vectorName))
    else if |request.vector| != collections[name].params.size then Failure(StoreErrorText("Wrong vector dimension", name))
    else ranking(collections[name], request.vector, request.limit)
  }

  /** The Qdrant client as seen by the repository. */
  class VectorStore {
    var collections: map<string, Collection>
    const ranking: Ranking

    ghost predicate Valid()
      reads this
    {
      Sized(collections)
    }

    constructor (ranking: Ranking)
      ensures Valid() && collections == map[] && this.ranking == ranking
    {
      collections := map[];
      this.ranking := ranking;
    }

    /** `upsert(collection_name, wait=True, points)`. */
    method Upsert(name: string, points: seq<PointStruct>, reported: UpdateStatus) returns (r: Result<UpdateStatus, string>)
      requires Valid()
      modifies this
      ensures Valid()
      ensures r == UpsertResult(old(collections), name, points, reported)
      ensures collections == UpsertState(old(collections), name, points)
    {
      if name !in collections {
        return Failure(StoreErrorText("Collection not found", name));
      }
      if !AllSized(points, collections[name].params.size) {
        return Failure(StoreErrorText("Wrong vector dimension", name));
      }
      var c := collections[name];
      WritePointsSized(c.points, points, c.params.size);
      collections := collections[name := c.(points := WritePoints(c.points, points))];
      r := Success(reported);
    }

    /** `create_collection(collection_name, vectors_config)`: refused when
        the name is taken. */
    method CreateCollection(name: string, params: VectorParams) returns (r: Result<(), string>)
      requires Valid()
      modifies this
      ensures Valid()
      ensures name in old(collections) ==>
                r == Failure(StoreErrorText("Collection already exists", name)) && collections == old(collections)
      ensures name !in old(collections) ==>
                r == Success(()) && collections == old(collections)[name := Collection(params, map[])]
    {
      if name in collections {
        return Failure(StoreErrorText("Collection already exists", name));
      }
      collections := collections[name := Collection(params, map[])];
      r := Success(());
    }
  }

  // ------------------------------------------------------------ the repository

  const InsertFailedText := "Failed to insert data"
  const QueryVectorName := "text"

  /** What `add_data_to_collection_unstructure` reports for a built batch. */
  function InsertOutcome(upserted: Result<UpdateStatus, string>): (r: Result<(), string>)
    ensures r.Success? <==> upserted == Success(Completed)
    ensures upserted.Failure? ==> r == Failure(upserted.error)
    ensures upserted == Success(Acknowledged) ==> r == Failure(InsertFailedText)
  {
    match upserted
    case Failure(e) => Failure(e)
    case Success(status) => if status != Completed then Failure(InsertFailedText) else Success(())
  }

  /** `[{"score": hit.score, "payload": hit.payload} for hit in hits]`. */
  function SearchRecords(hits: seq<ScoredPoint>): (r: seq<SearchRecord>)
    ensures |r| == |hits|
    ensures forall i :: 0 <= i < |r| ==> r[i].score == hits[i].score && r[i].payload == hits[i].payload
  {
    seq(|hits|, i requires 0 <= i < |hits| => SearchRecord(hits[i].score, hits[i].payload))
  }

  class VectorDbRepository {
    const client: VectorStore
    /** `Config.QDRANT_COLLECTION_NAME`. */
    const collectionName: string
    /** `SentenceTransformer.encode`. */
    const embed: string -> Vector
    /** `get_sentence_embedding_dimension()`. */
    const dimension: nat
    /** The ids `uuid.uuid4()` hands out, in call order. */
    const uuid4: nat -> string
    /** How many ids have been drawn. */
    var issued: nat

    ghost predicate Valid()
      reads this, client
    {
      && client.Valid()
      && forall s :: |embed(s)| == dimension
    }

    constructor (client: VectorStore, collectionName: string, embed: string -> Vector, dimension: nat, uuid4: nat -> string)
      requires client.Valid() && forall s :: |embed(s)| == dimension
      ensures Valid()
      ensures this.client == client && this.collectionName == collectionName && this.embed == embed
      ensures this.dimension == dimension && this.uuid4 == uuid4 && issued == 0
    {
      this.client := client;
      this.collectionName := collectionName;
      this.embed := embed;
      this.dimension := dimension;
      this.uuid4 := uuid4;
      issued := 0;
    }

    /** The loop of `add_data_to_collection_unstructure`: one id drawn and
        one point built per document, in order, until the first document
        whose payload raises. */
    method BuildBatch(data: seq<Document>) returns (r: Result<seq<PointStruct>, string>)
      modifies this
      ensures r == BuildPoints(embed, uuid4, old(issued), data)
      ensures issued == old(issued) + CallsMade(WithIds(uuid4, old(issued), data), PointOf(embed))
    {
      ghost var items := WithIds(uuid4, issued, data);
      ghost var first := issued;
      var points: seq<PointStruct> := [];
      var i := 0;
      while i < |data|
        invariant 0 <= i <= |data| && issued == first + i
        invariant MapAll(items[..i], PointOf(embed)) == Success(points)
      {
        var textId := uuid4(issued);
        issued := issued + 1;
        var point := MakePoint(embed, textId, data[i]);
        if point.Failure? {
          MapAllStops(items, PointOf(embed), i, points);
          return Failure(point.error);
        }
        MapAllStep(items, PointOf(embed), i, points);
        points := points + [point.value];
        i := i + 1;
      }
      MapAllDone(items, PointOf(embed), points);
      r := Success(points);
    }

    /** `add_data_to_collection_unstructure(data)` (the second, effective
        definition): build the batch, upsert it into the configured
        collection, and raise unless the server reports COMPLETED.
        `reported` is the status the server answers with. */
    method AddDataToCollectionUnstructure(data: seq<Document>, reported: UpdateStatus) returns (r: Result<(), string>)
      requires Valid()
      modifies this, client
      ensures Valid()
      ensures issued == old(issued) + CallsMade(WithIds(uuid4, old(issued), data), PointOf(embed))
      ensures BuildPoints(embed, uuid4, old(issued), data).Failure? ==>
                && r == Failure(BuildPoints(embed, uuid4, old(issued), data).error)
                && client.collections == old(client.collections)
      ensures BuildPoints(embed, uuid4, old(issued), data).Success? ==>
                var points := BuildPoints(embed, uuid4, old(issued), data).value;
                && r == InsertOutcome(UpsertResult(old(client.collections), collectionName, points, reported))
                && client.collections == UpsertState(old(client.collections), collectionName, points)
    {
      var points := BuildBatch(data);
      if points.Failure? {
        return Failure(points.error);
      }
      var status := client.Upsert(collectionName, points.value, reported);
      if status.Failure? {
        return Failure(status.error);
      }
      if status.value != Completed {
        return Failure(InsertFailedText);
      }
      r := Success(());
    }

    /** The score/payload records of a search for the embedded query
        against the vector `vectorName` of collection `name`. */
    function SearchFor(vectorName: string, query: string, limit: int, name: string): Result<seq<SearchRecord>, string>
      reads this, client
    {
      var hits :- ServerSearch(client.collections, client.ranking, SearchRequest(name, vectorName, embed(query), limit));
      Success(SearchRecords(hits))
    }

    /** `search(query, limit, collection_name)` as written: the query is
        sent as the named vector "text"; the hits come back as score/payload
        records in hit order, and a server error propagates. */
    function Search(query: string, limit: int, name: string): (r: Result<seq<SearchRecord>, string>)
      reads this, client
      ensures var hits := ServerSearch(client.collections, client.ranking, SearchRequest(name, QueryVectorName, embed(query), limit));
              && (r.Success? <==> hits.Success?)
              && (r.Failure? ==> r.error == hits.error)
              && (r.Success? ==> r.value == SearchRecords(hits.value))
    {
      SearchFor(QueryVectorName, query, limit, name)
    }

    /** `search` as evidently intended: the bare query vector, matching the
        unnamed vector the collections are created with and the points are
        upserted into. */
    function SearchCorrected(query: string, limit: int, name: string): (r: Result<seq<SearchRecord>, string>)
      reads this, client
      ensures var hits := ServerSearch(client.collections, client.ranking, SearchRequest(name, UnnamedVector, embed(query), limit));
              && (r.Success? <==> hits.Success?)
              && (r.Failure? ==> r.error == hits.error)
              && (r.Success? ==> r.value == SearchRecords(hits.value))
    {
      SearchFor(UnnamedVector, query, limit, name)
    }

    /** `create_collection(collection_name)`: sized to the embedder's output,
        compared by cosine distance. */
    method CreateCollection(name: string) returns (r: Result<(), string>)
      requires Valid()
      modifies client
      ensures Valid()
      ensures name in old(client.collections) ==> r.Failure? && client.collections == old(client.collections)
      ensures name !in old(client.collections) ==>
                && r == Success(())
                && client.collections == old(client.collections)[name := Collection(VectorParams(dimension, Cosine), map[])]
    {
      r := client.CreateCollection(name, VectorParams(dimension, Cosine));
    }
  }

  /** As written, every search of an existing collection is refused: the
      collections know no vector named "text", so `search` never returns a
      hit. */
  lemma SearchNamedVectorRefused(repo: VectorDbRepository, query: string, limit: int, name: string)
    requires name in repo.client.collections
    ensures repo.Search(query, limit, name) == Failure(StoreErrorText("Not existing vector name", QueryVectorName))
  {
  }

  /** With the bare query vector, a search of a collection the repository
      created reaches the ranking, and its hits come back in order. */
  lemma SearchCreatedCollection(repo: VectorDbRepository, query: string, limit: int, name: string)
    requires repo.Valid()
    requires name in repo.client.collections && repo.client.collections[name].params == VectorParams(repo.dimension, Cosine)
    ensures var ranked := repo.client.ranking(repo.client.collections[name], repo.embed(query), limit);
            && (repo.SearchCorrected(query, limit, name).Success? <==> ranked.Success?)
            && (ranked.Success? ==> repo.SearchCorrected(query, limit, name).value == SearchRecords(ranked.value))
  {
    assert |repo.embed(query)| == repo.dimension;
  }

  /** A batch built by the repository fits any collection it created: the
      dimension check of the upsert never fires, so the outcome is the
      server's status. */
  lemma CreatedCollectionAcceptsBatch(collections: map<string, Collection>, name: string,
                                      embed: string -> Vector, dimension: nat, uuid4: nat -> string,
                                      first: nat, data: seq<Document>, reported: UpdateStatus)
    requires forall s :: |embed(s)| == dimension
    requires name in collections && collections[name].params == VectorParams(dimension, Cosine)
    requires BuildPoints(embed, uuid4, first, data).Success?
    ensures UpsertResult(collections, name, BuildPoints(embed, uuid4, first, data).value, reported) == Success(reported)
    ensures var outcome := InsertOutcome(UpsertResult(collections, name, BuildPoints(embed, uuid4, first, data).value, reported));
            outcome.Success? <==> reported == Completed
  {
    BuildPointsShape(embed, uuid4, first, data);
  }
}
