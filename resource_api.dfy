/**
 * The common shape of the four resource bindings (assets, parts, users, work orders): the
 * request each endpoint builds and the cache tags each endpoint provides or invalidates.
 * Each binding is this shape applied to its own base URL, collection path and tag type.
 */
module ResourceApi {
  import opened Wrappers
  import opened Models
  import opened Http

  datatype TagType = Assets | Parts | Users | WorkOrders

  /** A cache tag `{type, id}`. The whole collection is the plain id `'LIST'`. */
  datatype Tag = Tag(tagType: TagType, id: string)

  const ListId := "LIST"

  function ListTag(t: TagType): Tag {
    Tag(t, ListId)
  }

  /**
   * The `createApi` slice a binding belongs to, by its `reducerPath`: `assetsApi`, `partsApi`,
   * `usersApi` and `workOrdersApi`. Each slice keeps its own cache, so tags are matched only
   * between a mutation and the queries of the same slice.
   */
  datatype ApiSlice = AssetsApiSlice | PartsApiSlice | UsersApiSlice | WorkOrdersApiSlice

  datatype Binding = Binding(base: string, tagType: TagType, collection: string, slice: ApiSlice)

  // ---------------------------------------------------------------------------------------------
  // Query builders

  /** `getX`: `query: () => 'x/'`, a GET without a body. */
  function ListQuery(b: Binding): (r: Request)
    ensures r.httpMethod == GET && r.body == None && r.url == b.base + b.collection
  {
    Request(b.base + b.collection, GET, None)
  }

  function ItemPath(b: Binding, id: string): string {
    b.base + b.collection + id + "/"
  }

  /** `getXById(id)`: a GET on `x/{id}/`. */
  function ByIdQuery(b: Binding, id: string): (r: Request)
    ensures r.httpMethod == GET && r.body == None && r.url == ItemPath(b, id)
  {
    Request(ItemPath(b, id), GET, None)
  }

  /** `createX(body)`: a POST on the collection carrying the new record unchanged. */
  function CreateQuery(b: Binding, body: Record): (r: Request)
    ensures r.httpMethod == POST && r.url == b.base + b.collection && r.body == Some(body)
  {
    Request(b.base + b.collection, POST, Some(body))
  }

  /**
   * `updateX({id, ...patch})`: a PATCH on `x/{id}/` whose body is the argument without `id`.
   * An argument without `id` would print `undefined` into the URL.
   */
  function UpdateQuery(b: Binding, arg: Record): (r: Request)
    ensures r.httpMethod == PATCH && r.url == ItemPath(b, TemplateText(Field(arg, "id")))
    ensures r.body.Some? && "id" !in r.body.value
    ensures r.body.Some? && forall k :: k in arg && k != "id" ==> k in r.body.value && r.body.value[k] == arg[k]
    ensures r.body.Some? && forall k :: k in r.body.value ==> k in arg
  {
    Request(ItemPath(b, TemplateText(Field(arg, "id"))), PATCH, Some(arg - {"id"}))
  }

  /** Putting the id back into an update's body gives back the argument. */
  lemma UpdateBodyRestoresArgument(b: Binding, arg: Record)
    requires "id" in arg
    ensures UpdateQuery(b, arg).body.value["id" := arg["id"]] == arg
  {
    var body := UpdateQuery(b, arg).body.value;
    assert body["id" := arg["id"]].Keys == arg.Keys;
  }

  /** `deleteX(id)`: a DELETE on `x/{id}/` without a body. */
  function DeleteQuery(b: Binding, id: string): (r: Request)
    ensures r.httpMethod == DELETE && r.body == None && r.url == ItemPath(b, id)
  {
    Request(ItemPath(b, id), DELETE, None)
  }

  // ---------------------------------------------------------------------------------------------
  // Tags. The callbacks receive the result and error of the call; the single-entity ones ignore
  // both, which is why their parameters are unused here too.

  /** `providesTags` of a list query: one tag per returned entity, in order, then the LIST tag. */
  function ListProvides<E>(t: TagType, result: Option<seq<E>>, idOf: E -> string): (r: seq<Tag>)
    ensures result.None? ==> r == [ListTag(t)]
    ensures result.Some? ==> |r| == |result.value| + 1
    ensures result.Some? ==> forall i :: 0 <= i < |result.value| ==> r[i] == Tag(t, idOf(result.value[i]))
    ensures r[|r| - 1] == ListTag(t)
  {
    match result
    case None => [ListTag(t)]
    case Some(xs) => seq(|xs|, i requires 0 <= i < |xs| => Tag(t, idOf(xs[i]))) + [ListTag(t)]
  }

  /** `providesTags` of `getXById(id)`. */
  function ByIdProvides<R>(t: TagType, result: Option<R>, error: Option<ApiError>, id: string): (r: seq<Tag>)
    ensures forall tag :: tag in r <==> tag.tagType == t && tag.id == id
  {
    [Tag(t, id)]
  }

  /** `invalidatesTags` of `createX` (a constant list). */
  function CreateInvalidates(t: TagType): (r: seq<Tag>)
    ensures forall tag :: tag in r <==> tag.tagType == t && tag.id == ListId
  {
    [ListTag(t)]
  }

  /** `invalidatesTags` of `updateX` (the `id` destructured from the argument). */
  function UpdateInvalidates<R>(t: TagType, result: Option<R>, error: Option<ApiError>, arg: Record): (r: seq<Tag>)
    ensures forall tag :: tag in r <==> tag.tagType == t && tag.id == TemplateText(Field(arg, "id"))
  {
    [Tag(t, TemplateText(Field(arg, "id")))]
  }

  /** `invalidatesTags` of `deleteX(id)`. */
  function DeleteInvalidates<R>(t: TagType, result: Option<R>, error: Option<ApiError>, id: string): (r: seq<Tag>)
    ensures forall tag :: tag in r <==> tag.tagType == t && (tag.id == id || tag.id == ListId)
  {
    [Tag(t, id), ListTag(t)]
  }

  predicate AllOfType(tags: seq<Tag>, t: TagType) {
    forall i :: 0 <= i < |tags| ==> tags[i].tagType == t
  }

  /** A list query only ever provides tags of its own type. */
  lemma ListProvidesOwnType<E>(t: TagType, result: Option<seq<E>>, idOf: E -> string)
    ensures AllOfType(ListProvides(t, result, idOf), t)
  {
  }

  /** The tags a list query provides are exactly its entities' ids and LIST. */
  lemma ListProvidesExactly<E>(t: TagType, xs: seq<E>, idOf: E -> string, tag: Tag)
    ensures tag in ListProvides(t, Some(xs), idOf) <==>
            tag == ListTag(t) || exists i :: 0 <= i < |xs| && tag == Tag(t, idOf(xs[i]))
  {
    var r := ListProvides(t, Some(xs), idOf);
    if tag in r {
      var j :| 0 <= j < |r| && r[j] == tag;
      if j < |xs| {
        assert tag == Tag(t, idOf(xs[j]));
      }
    }
    if exists i :: 0 <= i < |xs| && tag == Tag(t, idOf(xs[i])) {
      var i :| 0 <= i < |xs| && tag == Tag(t, idOf(xs[i]));
      assert r[i] == tag;
    }
  }

  /** Create never invalidates an entity tag. */
  lemma CreateTouchesNoEntity(t: TagType, id: string)
    requires id != ListId
    ensures Tag(t, id) !in CreateInvalidates(t)
  {
  }

  /** Update invalidates its entity and, for a real entity id, not the list. */
  lemma UpdateSparesList<R>(t: TagType, result: Option<R>, error: Option<ApiError>, id: string)
    requires id != ListId
    ensures UpdateInvalidates(t, result, error, map["id" := Str(id)]) == [Tag(t, id)]
    ensures ListTag(t) !in UpdateInvalidates(t, result, error, map["id" := Str(id)])
  {
  }

  /** Delete's tags are update's tags and create's tags together, for the same id. */
  lemma DeleteIsUpdateAndCreate<R>(t: TagType, result: Option<R>, error: Option<ApiError>, id: string)
    ensures var del := DeleteInvalidates(t, result, error, id);
            forall tag :: tag in UpdateInvalidates(t, result, error, map["id" := Str(id)]) ==> tag in del
    ensures var del := DeleteInvalidates(t, result, error, id);
            forall tag :: tag in CreateInvalidates(t) ==> tag in del
    ensures var del := DeleteInvalidates(t, result, error, id);
            forall tag :: tag in del ==>
              tag in UpdateInvalidates(t, result, error, map["id" := Str(id)]) || tag in CreateInvalidates(t)
  {
  }

  /** The single-entity tag callbacks give the same tags on success and on failure. */
  lemma TagsIgnoreOutcome<R>(t: TagType, r1: Option<R>, e1: Option<ApiError>, r2: Option<R>, e2: Option<ApiError>, id: string, arg: Record)
    ensures ByIdProvides(t, r1, e1, id) == ByIdProvides(t, r2, e2, id)
    ensures UpdateInvalidates(t, r1, e1, arg) == UpdateInvalidates(t, r2, e2, arg)
    ensures DeleteInvalidates(t, r1, e1, id) == DeleteInvalidates(t, r2, e2, id)
  {
  }

  // ---------------------------------------------------------------------------------------------
  // Invalidation. The caching library itself is not part of this model; these lemmas state its
  // matching rule as an assumption: a cached query is refetched when it belongs to the same
  // slice as a committed mutation and one of the tags it provided is among the tags the
  // mutation invalidates.

  predicate SharesTag(provided: seq<Tag>, invalidated: seq<Tag>) {
    exists tag :: tag in provided && tag in invalidated
  }

  predicate Refetched(querySlice: ApiSlice, provided: seq<Tag>, mutationSlice: ApiSlice, invalidated: seq<Tag>) {
    querySlice == mutationSlice && SharesTag(provided, invalidated)
  }

  /** After a create, every list query of that type is refetched, whatever it holds. */
  lemma CreateRefetchesList<E>(s: ApiSlice, t: TagType, result: Option<seq<E>>, idOf: E -> string)
    ensures Refetched(s, ListProvides(t, result, idOf), s, CreateInvalidates(t))
  {
    var r := ListProvides(t, result, idOf);
    assert r[|r| - 1] in r;
  }

  /** A create leaves every cached single-entity query alone. */
  lemma CreateKeepsEntities<R>(qs: ApiSlice, ms: ApiSlice, t: TagType, result: Option<R>, error: Option<ApiError>, id: string)
    requires id != ListId
    ensures !Refetched(qs, ByIdProvides(t, result, error, id), ms, CreateInvalidates(t))
  {
  }

  /** An update of an entity that a cached list contains refetches that list. */
  lemma UpdateRefetchesContainingList<E, R>(s: ApiSlice, t: TagType, xs: seq<E>, idOf: E -> string, k: nat,
                                           result: Option<R>, error: Option<ApiError>)
    requires k < |xs|
    ensures Refetched(s, ListProvides(t, Some(xs), idOf), s, UpdateInvalidates(t, result, error, map["id" := Str(idOf(xs[k]))]))
  {
    var r := ListProvides(t, Some(xs), idOf);
    assert r[k] in r;
  }

  /** An update of one id leaves the cached queries of other ids alone. */
  lemma UpdateSparesOthers<R>(qs: ApiSlice, ms: ApiSlice, t: TagType, result: Option<R>, error: Option<ApiError>, id: string, other: string)
    requires other != id
    ensures !Refetched(qs, ByIdProvides(t, result, error, other), ms, UpdateInvalidates(t, result, error, map["id" := Str(id)]))
  {
  }

  /** A delete refetches the deleted entity's query and every list query of that type. */
  lemma DeleteRefetchesEntityAndList<E, R>(s: ApiSlice, t: TagType, listResult: Option<seq<E>>, idOf: E -> string,
                                          result: Option<R>, error: Option<ApiError>, id: string)
    ensures Refetched(s, ByIdProvides(t, result, error, id), s, DeleteInvalidates(t, result, error, id))
    ensures Refetched(s, ListProvides(t, listResult, idOf), s, DeleteInvalidates(t, result, error, id))
  {
    var r := ListProvides(t, listResult, idOf);
    assert r[|r| - 1] in r;
    assert Tag(t, id) in ByIdProvides(t, result, error, id);
  }

  /** Tags of different types never match, even inside one slice. */
  lemma TypesIsolated(qs: ApiSlice, provided: seq<Tag>, t: TagType, ms: ApiSlice, invalidated: seq<Tag>, u: TagType)
    requires AllOfType(provided, t) && AllOfType(invalidated, u) && t != u
    ensures !SharesTag(provided, invalidated)
    ensures !Refetched(qs, provided, ms, invalidated)
  {
  }

  /** A mutation of one slice refetches no query of another slice, whatever tags they share. */
  lemma SlicesIsolated(qs: ApiSlice, provided: seq<Tag>, ms: ApiSlice, invalidated: seq<Tag>)
    requires qs != ms
    ensures !Refetched(qs, provided, ms, invalidated)
  {
  }
}
