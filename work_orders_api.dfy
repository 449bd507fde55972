/**
 * The `workOrdersApi` binding: the shared resource shape on `work-orders/` with `WorkOrders`
 * tags, plus `getTechnicians`, which lists the users a work order can be assigned to.
 */
module WorkOrdersApi {
  import opened Wrappers
  import opened Models
  import opened Http
  import opened ResourceApi
  import UsersApi

  const BindingWorkOrders := Binding(ApiBase, TagType.WorkOrders, "work-orders/", WorkOrdersApiSlice)

  function WorkOrderId(w: WorkOrder): string {
    w.id
  }

  /** The URL and method of each work-order endpoint, written out. */
  lemma Endpoints(id: string, body: Record)
    ensures ListQuery(BindingWorkOrders) == Request("http://127.0.0.1:8000/api/v1/work-orders/", GET, None)
    ensures ByIdQuery(BindingWorkOrders, id) == Request("http://127.0.0.1:8000/api/v1/work-orders/" + id + "/", GET, None)
    ensures CreateQuery(BindingWorkOrders, body) == Request("http://127.0.0.1:8000/api/v1/work-orders/", POST, Some(body))
    ensures UpdateQuery(BindingWorkOrders, body["id" := Str(id)]) ==
            Request("http://127.0.0.1:8000/api/v1/work-orders/" + id + "/", PATCH, Some(body - {"id"}))
    ensures DeleteQuery(BindingWorkOrders, id) == Request("http://127.0.0.1:8000/api/v1/work-orders/" + id + "/", DELETE, None)
  {
    assert body["id" := Str(id)] - {"id"} == body - {"id"};
  }

  /** The tags of each work-order endpoint, written out. */
  lemma CacheTags<R>(xs: seq<WorkOrder>, result: Option<R>, error: Option<ApiError>, id: string)
    ensures ListProvides(TagType.WorkOrders, None, WorkOrderId) == [Tag(TagType.WorkOrders, "LIST")]
    ensures ListProvides(TagType.WorkOrders, Some(xs), WorkOrderId) ==
            seq(|xs|, i requires 0 <= i < |xs| => Tag(TagType.WorkOrders, xs[i].id)) + [Tag(TagType.WorkOrders, "LIST")]
    ensures ByIdProvides(TagType.WorkOrders, result, error, id) == [Tag(TagType.WorkOrders, id)]
    ensures CreateInvalidates(TagType.WorkOrders) == [Tag(TagType.WorkOrders, "LIST")]
    ensures UpdateInvalidates(TagType.WorkOrders, result, error, map["id" := Str(id)]) == [Tag(TagType.WorkOrders, id)]
    ensures DeleteInvalidates(TagType.WorkOrders, result, error, id) ==
            [Tag(TagType.WorkOrders, id), Tag(TagType.WorkOrders, "LIST")]
  {
  }

  // ---------------------------------------------------------------------------------------------
  // getTechnicians

  /** `getTechnicians`' query: every user, from the authentication service's user list. */
  function TechniciansQuery(): (r: Request)
    ensures r == Request("http://127.0.0.1:8000/api/v1/auth/users/", GET, None)
  {
    Request(ApiBase + "auth/users/", GET, None)
  }

  /** The roles `transformResponse` keeps. */
  predicate Assignable(u: User) {
    u.role == Technician || u.role == Admin || u.role == Manager
  }

  /** `b` can be obtained from `a` by deleting elements. */
  predicate IsSubsequence<T(==)>(b: seq<T>, a: seq<T>)
    decreases |a|
  {
    if b == [] then true
    else if a == [] then false
    else (b[0] == a[0] && IsSubsequence(b[1..], a[1..])) || IsSubsequence(b, a[1..])
  }

  /** `transformResponse`: `response.filter(user => role is technician, admin or manager)`. */
  function TransformTechnicians(response: seq<User>): (r: seq<User>)
    ensures forall i :: 0 <= i < |r| ==> Assignable(r[i]) && r[i].role != Requester
    ensures forall u :: u in response && Assignable(u) ==> u in r
    ensures forall u :: u in r ==> u in response
    ensures IsSubsequence(r, response)
  {
    if response == [] then []
    else if Assignable(response[0]) then [response[0]] + TransformTechnicians(response[1..])
    else TransformTechnicians(response[1..])
  }

  /** Filtering a concatenation filters each part in place: the original order is kept. */
  lemma {:induction false} TransformDistributes(a: seq<User>, b: seq<User>)
    ensures TransformTechnicians(a + b) == TransformTechnicians(a) + TransformTechnicians(b)
  {
    if a == [] {
      assert a + b == b;
    } else {
      assert (a + b)[0] == a[0];
      assert (a + b)[1..] == a[1..] + b;
      TransformDistributes(a[1..], b);
    }
  }

  /** Filtering twice is filtering once. */
  lemma {:induction false} TransformIdempotent(response: seq<User>)
    ensures TransformTechnicians(TransformTechnicians(response)) == TransformTechnicians(response)
  {
    if response != [] {
      TransformIdempotent(response[1..]);
    }
  }

  /** A response with no requester passes through unchanged. */
  lemma {:induction false} TransformKeepsAssignable(response: seq<User>)
    requires forall i :: 0 <= i < |response| ==> Assignable(response[i])
    ensures TransformTechnicians(response) == response
  {
    if response != [] {
      TransformKeepsAssignable(response[1..]);
      assert [response[0]] + response[1..] == response;
    }
  }

  /** `getTechnicians` provides `Users` tags (per user, then LIST) and never a work-order tag. */
  lemma TechniciansProvideUserTags(result: Option<seq<User>>)
    ensures AllOfType(ListProvides(TagType.Users, result, UsersApi.UserId), TagType.Users)
    ensures forall tag :: tag in ListProvides(TagType.Users, result, UsersApi.UserId) ==> tag.tagType != TagType.WorkOrders
  {
    ListProvidesOwnType(TagType.Users, result, UsersApi.UserId);
  }

  /**
   * `getTechnicians` provides the same `Users` tags as `usersApi` does: updating a listed user
   * names one of them.
   */
  lemma TechniciansShareUserTags<R>(xs: seq<User>, k: nat, r: Option<R>, e: Option<ApiError>)
    requires k < |xs|
    ensures SharesTag(ListProvides(TagType.Users, Some(xs), UsersApi.UserId),
                      UpdateInvalidates(TagType.Users, r, e, map["id" := Str(xs[k].id)]))
  {
    UpdateRefetchesContainingList(BindingWorkOrders.slice, TagType.Users, xs, UsersApi.UserId, k, r, e);
  }

  /**
   * Yet no user mutation refetches `getTechnicians`: those run in the `usersApi` slice, and the
   * technician list is cached in the `workOrdersApi` slice.
   */
  lemma UserMutationsSpareTechnicians<R>(result: Option<seq<User>>, r: Option<R>, e: Option<ApiError>, id: string, arg: Record)
    ensures var provided := ListProvides(TagType.Users, result, UsersApi.UserId);
            var users := UsersApi.BindingUsers;
            !Refetched(BindingWorkOrders.slice, provided, users.slice, CreateInvalidates(users.tagType)) &&
            !Refetched(BindingWorkOrders.slice, provided, users.slice, UpdateInvalidates(users.tagType, r, e, arg)) &&
            !Refetched(BindingWorkOrders.slice, provided, users.slice, DeleteInvalidates(users.tagType, r, e, id))
  {
  }

  /**
   * And no mutation of its own slice refetches it either: the work-order mutations invalidate only
   * `WorkOrders` tags. Nothing refetches the technician list once it is cached.
   */
  lemma WorkOrderMutationsSpareTechnicians<R>(result: Option<seq<User>>, r: Option<R>, e: Option<ApiError>, id: string, arg: Record)
    ensures var provided := ListProvides(TagType.Users, result, UsersApi.UserId);
            var s := BindingWorkOrders.slice;
            !Refetched(s, provided, s, CreateInvalidates(TagType.WorkOrders)) &&
            !Refetched(s, provided, s, UpdateInvalidates(TagType.WorkOrders, r, e, arg)) &&
            !Refetched(s, provided, s, DeleteInvalidates(TagType.WorkOrders, r, e, id))
  {
    var s := BindingWorkOrders.slice;
    var provided := ListProvides(TagType.Users, result, UsersApi.UserId);
    ListProvidesOwnType(TagType.Users, result, UsersApi.UserId);
    TypesIsolated(s, provided, TagType.Users, s, CreateInvalidates(TagType.WorkOrders), TagType.WorkOrders);
    TypesIsolated(s, provided, TagType.Users, s, UpdateInvalidates(TagType.WorkOrders, r, e, arg), TagType.WorkOrders);
    TypesIsolated(s, provided, TagType.Users, s, DeleteInvalidates(TagType.WorkOrders, r, e, id), TagType.WorkOrders);
  }
}
