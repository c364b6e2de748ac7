/** The configuration page: the coupon-status catalogue with its create,
    edit and delete dialogs. */
module Configuracion {
  import opened Text
  import opened Entities

  /** The request `handleSave` sends. */
  datatype SaveRequest = Update(id: int, data: FormData) | Create(data: FormData)

  /** An item whose id is present and not 0 is updated; anything else,
      including a new item, is created. */
  function SaveRequestFor(currentItem: Option<CatalogItem>, data: FormData): (r: SaveRequest)
    ensures r.Update? <==> currentItem.Some? && IdTruthy(currentItem.value.id)
    ensures r.Update? ==> r.id == currentItem.value.id.value
    ensures r.data == data
  {
    if currentItem.Some? && IdTruthy(currentItem.value.id) then Update(currentItem.value.id.value, data)
    else Create(data)
  }

  const LoadError := "Error al cargar los estados de cupón."
  const SaveError := "Error al guardar. ¿El nombre ya existe?"
  const DeleteError := "Error al eliminar. ¿Está en uso?"

  class ConfiguracionPage {
    var estadosCupon: seq<CatalogItem>
    var isLoading: bool
    var error: Option<string>
    var showEditModal: bool
    var currentItem: Option<CatalogItem>
    var isSaving: bool
    var modalError: Option<string>
    var showDeleteModal: bool
    var itemParaEliminar: Option<int>
    var isDeleting: bool

    /** Between events no save and no deletion is in progress. */
    predicate Idle()
      reads this
    {
      !isSaving && !isDeleting
    }

    /** Nothing is open and nothing is selected. */
    predicate Closed()
      reads this
    {
      !showEditModal && !showDeleteModal && currentItem.None? && itemParaEliminar.None? && modalError.None? && Idle()
    }

    constructor ()
      ensures Closed()
      ensures estadosCupon == [] && isLoading && error == None
    {
      estadosCupon, isLoading, error := [], true, None;
      showEditModal, currentItem, isSaving, modalError := false, None, false, None;
      showDeleteModal, itemParaEliminar, isDeleting := false, None, false;
    }

    /** `fetchEstadosCupon`, run to completion with the given outcome. */
    method FetchEstadosCupon(outcome: Outcome<seq<CatalogItem>>)
      modifies this`estadosCupon, this`isLoading, this`error
      ensures !isLoading
      ensures outcome.Ok? ==> estadosCupon == outcome.value && error == None
      ensures outcome.Fail? ==> estadosCupon == old(estadosCupon) && error == Some(Or(outcome.message, LoadError))
    {
      isLoading := true;
      error := None;
      match outcome {
        case Ok(data) => estadosCupon := data;
        case Fail(m) => error := Some(Or(m, LoadError));
      }
      isLoading := false;
    }

    /** `handleCloseModals`: both dialogs close and every selection is forgotten. */
    method CloseModals()
      modifies this`showEditModal, this`showDeleteModal, this`currentItem, this`itemParaEliminar,
               this`modalError, this`isSaving, this`isDeleting
      ensures Closed()
    {
      showEditModal, showDeleteModal := false, false;
      currentItem, itemParaEliminar := None, None;
      modalError := None;
      isSaving, isDeleting := false, false;
    }

    /** `handleOpenCreateModal` */
    method OpenCreate()
      modifies this`currentItem, this`modalError, this`showEditModal
      ensures currentItem == None && modalError == None && showEditModal
    {
      currentItem := None;
      modalError := None;
      showEditModal := true;
    }

    /** `handleOpenEditModal` */
    method OpenEdit(item: CatalogItem)
      modifies this`currentItem, this`modalError, this`showEditModal
      ensures currentItem == Some(item) && modalError == None && showEditModal
    {
      currentItem := Some(item);
      modalError := None;
      showEditModal := true;
    }

    /** `handleSave` with the outcome of the request. A success closes the
        dialogs and reloads the table; a failure keeps the dialog open with
        the error. The spinner is off afterwards either way. */
    method Save(data: FormData, outcome: Outcome<()>) returns (sent: SaveRequest, reload: bool)
      modifies this`showEditModal, this`showDeleteModal, this`currentItem, this`itemParaEliminar,
               this`modalError, this`isSaving, this`isDeleting
      ensures sent == SaveRequestFor(old(currentItem), data)
      ensures !isSaving
      ensures outcome.Ok? ==> reload && Closed()
      ensures outcome.Fail? ==> !reload && modalError == Some(Or(outcome.message, SaveError))
                                && showEditModal == old(showEditModal) && currentItem == old(currentItem)
                                && showDeleteModal == old(showDeleteModal) && itemParaEliminar == old(itemParaEliminar)
                                && isDeleting == old(isDeleting)
    {
      isSaving := true;
      modalError := None;
      sent := SaveRequestFor(currentItem, data);
      match outcome {
        case Ok(_) =>
          CloseModals();
          reload := true;
        case Fail(m) =>
          modalError := Some(Or(m, SaveError));
          reload := false;
      }
      isSaving := false;
    }

    /** `handleOpenDeleteModal` */
    method OpenDelete(id: int)
      modifies this`itemParaEliminar, this`modalError, this`showDeleteModal
      ensures itemParaEliminar == Some(id) && modalError == None && showDeleteModal
    {
      itemParaEliminar := Some(id);
      modalError := None;
      showDeleteModal := true;
    }

    /** `handleConfirmDelete` with the outcome of the request. The request
        goes out with whatever is selected, even nothing. */
    method ConfirmDelete(outcome: Outcome<()>) returns (target: Option<int>, reload: bool)
      modifies this`showEditModal, this`showDeleteModal, this`currentItem, this`itemParaEliminar,
               this`modalError, this`isSaving, this`isDeleting
      ensures target == old(itemParaEliminar)
      ensures !isDeleting
      ensures outcome.Ok? ==> reload && Closed()
      ensures outcome.Fail? ==> !reload && modalError == Some(Or(outcome.message, DeleteError))
                                && showDeleteModal == old(showDeleteModal) && itemParaEliminar == old(itemParaEliminar)
                                && showEditModal == old(showEditModal) && currentItem == old(currentItem)
                                && isSaving == old(isSaving)
    {
      isDeleting := true;
      modalError := None;
      target := itemParaEliminar;
      match outcome {
        case Ok(_) =>
          CloseModals();
          reload := true;
        case Fail(m) =>
          modalError := Some(Or(m, DeleteError));
          reload := false;
      }
      isDeleting := false;
    }
  }
}
