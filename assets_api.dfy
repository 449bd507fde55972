/** The `assetsApi` binding: the shared resource shape on `http://127.0.0.1:8000/api/v1/assets/` with `Assets` tags. */
module AssetsApi {
  import opened Wrappers
  import opened Models
  import opened Http
  import opened ResourceApi

  const BindingAssets := Binding(ApiBase, TagType.Assets, "assets/", AssetsApiSlice)

  function AssetId(x: Asset): string {
    x.id
  }

  /** The URL and method of each endpoint, written out. */
  lemma Endpoints(id: string, body: Record)
    ensures ListQuery(BindingAssets) == Request("http://127.0.0.1:8000/api/v1/assets/", GET, None)
    ensures ByIdQuery(BindingAssets, id) == Request("http://127.0.0.1:8000/api/v1/assets/" + id + "/", GET, None)
    ensures CreateQuery(BindingAssets, body) == Request("http://127.0.0.1:8000/api/v1/assets/", POST, Some(body))
    ensures UpdateQuery(BindingAssets, body["id" := Str(id)]) == Request("http://127.0.0.1:8000/api/v1/assets/" + id + "/", PATCH, Some(body - {"id"}))
    ensures DeleteQuery(BindingAssets, id) == Request("http://127.0.0.1:8000/api/v1/assets/" + id + "/", DELETE, None)
  {
    assert body["id" := Str(id)] - {"id"} == body - {"id"};
  }

  /** The tags of each endpoint, written out for this binding. */
  lemma CacheTags<R>(xs: seq<Asset>, result: Option<R>, error: Option<ApiError>, id: string)
    ensures ListProvides(TagType.Assets, None, AssetId) == [Tag(TagType.Assets, "LIST")]
    ensures ListProvides(TagType.Assets, Some(xs), AssetId) ==
            seq(|xs|, i requires 0 <= i < |xs| => Tag(TagType.Assets, xs[i].id)) + [Tag(TagType.Assets, "LIST")]
    ensures ByIdProvides(TagType.Assets, result, error, id) == [Tag(TagType.Assets, id)]
    ensures CreateInvalidates(TagType.Assets) == [Tag(TagType.Assets, "LIST")]
    ensures UpdateInvalidates(TagType.Assets, result, error, map["id" := Str(id)]) == [Tag(TagType.Assets, id)]
    ensures DeleteInvalidates(TagType.Assets, result, error, id) == [Tag(TagType.Assets, id), Tag(TagType.Assets, "LIST")]
  {
  }
}
