/**
 * The state every list page keeps around its edit dialog and its delete confirmation
 * (`openForm`, the selected entity, `openDeleteConfirm` and the pending id), and the mutation its
 * save and delete handlers issue. The outcome of each awaited mutation is an input.
 */
module CrudPage {
  import opened Wrappers
  import opened Models
  import opened Http
  import opened ResourceApi

  datatype Mutation = Create(body: Record) | Update(arg: Record)

  /** `{id: selected.id, ...data}`: the form's own `id`, spread last, wins. */
  function UpdateArgument(id: string, data: Record): (r: Record)
    ensures r.Keys == data.Keys + {"id"}
    ensures forall k :: k in data ==> r[k] == data[k]
    ensures "id" !in data ==> r["id"] == Str(id)
  {
    map["id" := Str(id)] + data
  }

  /** The call a save makes: an update of the selected entity, or a create with the form as is. */
  function SaveMutation(selectedId: Option<string>, data: Record): (m: Mutation)
    ensures m.Create? <==> selectedId.None?
    ensures m.Create? ==> m.body == data
    ensures m.Update? ==> m.arg == UpdateArgument(selectedId.value, data)
  {
    if selectedId.Some? then Update(UpdateArgument(selectedId.value, data)) else Create(data)
  }

  /** The request a mutation sends through a binding. */
  function MutationRequest(b: Binding, m: Mutation): Request {
    match m
    case Create(body) => CreateQuery(b, body)
    case Update(arg) => UpdateQuery(b, arg)
  }

  /** Saving an edited entity patches that entity's URL with exactly the form's fields. */
  lemma EditSavePatchesSelected(b: Binding, id: string, data: Record)
    requires "id" !in data
    ensures MutationRequest(b, SaveMutation(Some(id), data)) == Request(ItemPath(b, id), PATCH, Some(data))
  {
    var arg := UpdateArgument(id, data);
    assert arg - {"id"} == data by {
      assert (arg - {"id"}).Keys == data.Keys;
    }
  }

  /**
   * An edit form starts from the entity itself, so it carries the entity's own `id`: the patch then
   * goes to that entity with every other field of the form.
   */
  lemma EditSaveWithOwnId(b: Binding, id: string, data: Record)
    requires "id" in data && data["id"] == Str(id)
    ensures MutationRequest(b, SaveMutation(Some(id), data)) == Request(ItemPath(b, id), PATCH, Some(data - {"id"}))
  {
    assert UpdateArgument(id, data) == data by {
      assert UpdateArgument(id, data).Keys == data.Keys;
    }
  }

  /** A form that carries an `id` of its own sends the patch to that id instead. */
  lemma FormIdOverridesSelected(b: Binding, id: string, data: Record)
    requires "id" in data && data["id"].Str?
    ensures MutationRequest(b, SaveMutation(Some(id), data)).url == ItemPath(b, data["id"].s)
  {
  }

  /** Saving a new entity posts the form unchanged to the collection. */
  lemma CreateSavePostsForm(b: Binding, data: Record)
    ensures MutationRequest(b, SaveMutation(None, data)) == Request(b.base + b.collection, POST, Some(data))
  {
  }

  /** Which controls a page shows: the create button, and a row's edit and delete buttons. */
  datatype Controls = Controls(create: bool, edit: bool, delete: bool)

  /** `if (toDeleteId)`: the id a confirmed delete is issued with, when it is truthy. */
  function DeleteCall(pending: Option<string>): (id: Option<string>)
    ensures id.Some? <==> TruthyString(pending)
    ensures id.Some? ==> pending == id
  {
    if TruthyString(pending) then pending else None
  }

  class PageState<E> {
    const idOf: E -> string
    var openForm: bool
    var selected: Option<E>
    var openDeleteConfirm: bool
    var toDeleteId: Option<string>

    constructor (idOf: E -> string)
      ensures this.idOf == idOf
      ensures !openForm && selected == None && !openDeleteConfirm && toDeleteId == None
    {
      this.idOf := idOf;
      openForm := false;
      selected := None;
      openDeleteConfirm := false;
      toDeleteId := None;
    }

    /** The id of the entity being edited, if any. */
    function SelectedId(): (r: Option<string>)
      reads this
      ensures r.Some? <==> selected.Some?
      ensures r.Some? ==> r.value == idOf(selected.value)
    {
      if selected.Some? then Some(idOf(selected.value)) else None
    }

    /** `handleOpenCreate`. */
    method OpenCreate()
      modifies this
      ensures openForm && selected == None
      ensures openDeleteConfirm == old(openDeleteConfirm) && toDeleteId == old(toDeleteId)
    {
      selected := None;
      openForm := true;
    }

    /** `handleOpenEdit(e)`. */
    method OpenEdit(e: E)
      modifies this
      ensures openForm && selected == Some(e)
      ensures openDeleteConfirm == old(openDeleteConfirm) && toDeleteId == old(toDeleteId)
    {
      selected := Some(e);
      openForm := true;
    }

    /** `handleCloseForm`. */
    method CloseForm()
      modifies this
      ensures !openForm && selected == None
      ensures openDeleteConfirm == old(openDeleteConfirm) && toDeleteId == old(toDeleteId)
    {
      openForm := false;
      selected := None;
    }

    /** What follows an awaited save: the form closes only when the mutation succeeded. */
    method Settle(succeeded: bool)
      modifies this
      ensures succeeded ==> !openForm && selected == None
      ensures !succeeded ==> openForm == old(openForm) && selected == old(selected)
      ensures openDeleteConfirm == old(openDeleteConfirm) && toDeleteId == old(toDeleteId)
    {
      if succeeded {
        CloseForm();
      }
    }

    /** The save handler of the work-order, asset and part pages. */
    method Save(data: Record, succeeded: bool) returns (call: Mutation)
      modifies this
      ensures call == SaveMutation(old(SelectedId()), data)
      ensures succeeded ==> !openForm && selected == None
      ensures !succeeded ==> openForm == old(openForm) && selected == old(selected)
      ensures openDeleteConfirm == old(openDeleteConfirm) && toDeleteId == old(toDeleteId)
    {
      call := SaveMutation(SelectedId(), data);
      Settle(succeeded);
    }

    /** `handleOpenDeleteConfirm(id)`. */
    method OpenDeleteConfirm(id: string)
      modifies this
      ensures openDeleteConfirm && toDeleteId == Some(id)
      ensures openForm == old(openForm) && selected == old(selected)
    {
      toDeleteId := Some(id);
      openDeleteConfirm := true;
    }

    /** `handleCloseDeleteConfirm`. */
    method CloseDeleteConfirm()
      modifies this
      ensures !openDeleteConfirm && toDeleteId == None
      ensures openForm == old(openForm) && selected == old(selected)
    {
      openDeleteConfirm := false;
      toDeleteId := None;
    }

    /**
     * The delete handler: a delete is issued only for a truthy pending id, and the confirmation
     * closes only when it succeeded.
     */
    method ConfirmDelete(succeeded: bool) returns (call: Option<string>)
      modifies this
      ensures call == DeleteCall(old(toDeleteId))
      ensures call.Some? && succeeded ==> !openDeleteConfirm && toDeleteId == None
      ensures !(call.Some? && succeeded) ==>
                openDeleteConfirm == old(openDeleteConfirm) && toDeleteId == old(toDeleteId)
      ensures openForm == old(openForm) && selected == old(selected)
    {
      call := DeleteCall(toDeleteId);
      if call.Some? && succeeded {
        CloseDeleteConfirm();
      }
    }
  }
}
