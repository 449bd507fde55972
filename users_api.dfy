/** The `usersApi` binding: the shared resource shape on `http://127.0.0.1:8000/api/v1/admin/users/` with `Users` tags. */
module UsersApi {
  import opened Wrappers
  import opened Models
  import opened Http
  import opened ResourceApi

  const BindingUsers := Binding(AdminApiBase, TagType.Users, "users/", UsersApiSlice)

  function UserId(x: User): string {
    x.id
  }

  /** The URL and method of each endpoint, written out. */
  lemma Endpoints(id: string, body: Record)
    ensures ListQuery(BindingUsers) == Request("http://127.0.0.1:8000/api/v1/admin/users/", GET, None)
    ensures ByIdQuery(BindingUsers, id) == Request("http://127.0.0.1:8000/api/v1/admin/users/" + id + "/", GET, None)
    ensures CreateQuery(BindingUsers, body) == Request("http://127.0.0.1:8000/api/v1/admin/users/", POST, Some(body))
    ensures UpdateQuery(BindingUsers, body["id" := Str(id)]) == Request("http://127.0.0.1:8000/api/v1/admin/users/" + id + "/", PATCH, Some(body - {"id"}))
    ensures DeleteQuery(BindingUsers, id) == Request("http://127.0.0.1:8000/api/v1/admin/users/" + id + "/", DELETE, None)
  {
    assert body["id" := Str(id)] - {"id"} == body - {"id"};
  }

  /** The tags of each endpoint, written out for this binding. */
  lemma CacheTags<R>(xs: seq<User>, result: Option<R>, error: Option<ApiError>, id: string)
    ensures ListProvides(TagType.Users, None, UserId) == [Tag(TagType.Users, "LIST")]
    ensures ListProvides(TagType.Users, Some(xs), UserId) ==
            seq(|xs|, i requires 0 <= i < |xs| => Tag(TagType.Users, xs[i].id)) + [Tag(TagType.Users, "LIST")]
    ensures ByIdProvides(TagType.Users, result, error, id) == [Tag(TagType.Users, id)]
    ensures CreateInvalidates(TagType.Users) == [Tag(TagType.Users, "LIST")]
    ensures UpdateInvalidates(TagType.Users, result, error, map["id" := Str(id)]) == [Tag(TagType.Users, id)]
    ensures DeleteInvalidates(TagType.Users, result, error, id) == [Tag(TagType.Users, id), Tag(TagType.Users, "LIST")]
  {
  }
}
