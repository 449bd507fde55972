/** The `partsApi` binding: the shared resource shape on `http://127.0.0.1:8000/api/v1/parts/` with `Parts` tags. */
module PartsApi {
  import opened Wrappers
  import opened Models
  import opened Http
  import opened ResourceApi

  const BindingParts := Binding(ApiBase, TagType.Parts, "parts/", PartsApiSlice)

  function PartId(x: Part): string {
    x.id
  }

  /** The URL and method of each endpoint, written out. */
  lemma Endpoints(id: string, body: Record)
    ensures ListQuery(BindingParts) == Request("http://127.0.0.1:8000/api/v1/parts/", GET, None)
    ensures ByIdQuery(BindingParts, id) == Request("http://127.0.0.1:8000/api/v1/parts/" + id + "/", GET, None)
    ensures CreateQuery(BindingParts, body) == Request("http://127.0.0.1:8000/api/v1/parts/", POST, Some(body))
    ensures UpdateQuery(BindingParts, body["id" := Str(id)]) == Request("http://127.0.0.1:8000/api/v1/parts/" + id + "/", PATCH, Some(body - {"id"}))
    ensures DeleteQuery(BindingParts, id) == Request("http://127.0.0.1:8000/api/v1/parts/" + id + "/", DELETE, None)
  {
    assert body["id" := Str(id)] - {"id"} == body - {"id"};
  }

  /** The tags of each endpoint, written out for this binding. */
  lemma CacheTags<R>(xs: seq<Part>, result: Option<R>, error: Option<ApiError>, id: string)
    ensures ListProvides(TagType.Parts, None, PartId) == [Tag(TagType.Parts, "LIST")]
    ensures ListProvides(TagType.Parts, Some(xs), PartId) ==
            seq(|xs|, i requires 0 <= i < |xs| => Tag(TagType.Parts, xs[i].id)) + [Tag(TagType.Parts, "LIST")]
    ensures ByIdProvides(TagType.Parts, result, error, id) == [Tag(TagType.Parts, id)]
    ensures CreateInvalidates(TagType.Parts) == [Tag(TagType.Parts, "LIST")]
    ensures UpdateInvalidates(TagType.Parts, result, error, map["id" := Str(id)]) == [Tag(TagType.Parts, id)]
    ensures DeleteInvalidates(TagType.Parts, result, error, id) == [Tag(TagType.Parts, id), Tag(TagType.Parts, "LIST")]
  {
  }
}
