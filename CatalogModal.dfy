/** The create/edit dialog shared by the two catalogues (coupon statuses and
    payment gateways): the two dialogs differ only in their texts. */
module CatalogModal {
  import opened Text
  import opened Entities

  datatype Kind = EstadoCupon | PasarelaPago

  /** `!!initialData` */
  predicate IsEditing(initialData: Option<CatalogItem>)
  {
    initialData.Some?
  }

  /** The header text of each dialog in each mode: it starts with the verb of
      the mode ("Editar" or "Añadir"). */
  function HeaderTitle(kind: Kind, editing: bool): (t: string)
    ensures |t| >= 6 && t[..6] == if editing then "Editar" else "Añadir"
  {
    match kind
    case EstadoCupon => if editing then "Editar Estado de Cupón" else "Añadir Nuevo Estado de Cupón"
    case PasarelaPago => if editing then "Editar Pasarela de Pago" else "Añadir Nueva Pasarela"
  }

  /** The four headers are pairwise different, so the dialog always tells
      which catalogue and which mode it is in. */
  lemma HeadersDistinct(k1: Kind, e1: bool, k2: Kind, e2: bool)
    ensures HeaderTitle(k1, e1) == HeaderTitle(k2, e2) <==> k1 == k2 && e1 == e2
  {
  }

  /** The header colour and the submit button variant follow the mode. */
  function HeaderClass(editing: bool): string
  {
    if editing then "bg-primary text-white" else "bg-success text-white"
  }

  function SubmitVariant(editing: bool): string
  {
    if editing then "primary" else "success"
  }

  /** The form contents the dialog opens with: the item's texts, or empty. */
  function Prefill(initialData: Option<CatalogItem>): (f: FormData)
    ensures initialData.None? ==> f == FormData("", "")
    ensures initialData.Some? ==> f.nombre == Or(initialData.value.nombre, "") && f.descripcion == Or(initialData.value.descripcion, "")
  {
    if initialData.Some? then FormData(Or(initialData.value.nombre, ""), Or(initialData.value.descripcion, ""))
    else FormData("", "")
  }

  /** A name is accepted when something other than whitespace is left. */
  predicate NameBlank(nombre: string)
  {
    Trim(nombre) == ""
  }

  /** A freshly opened create dialog cannot be submitted as it is, while an
      edit dialog for an item with a non-blank name can. */
  lemma PrefillSubmittable(initialData: Option<CatalogItem>)
    ensures initialData.None? ==> NameBlank(Prefill(initialData).nombre)
    ensures initialData.Some? && initialData.value.nombre.Some? && !AllWhitespace(initialData.value.nombre.value) ==>
              !NameBlank(Prefill(initialData).nombre)
  {
    if initialData.Some? && initialData.value.nombre.Some? {
      BlankIff(initialData.value.nombre.value);
    }
  }

  class NameDescriptionModal {
    const kind: Kind
    var nombre: string
    var descripcion: string
    var validated: bool

    constructor (kind: Kind)
      ensures this.kind == kind && nombre == "" && descripcion == "" && !validated
    {
      this.kind := kind;
      nombre, descripcion, validated := "", "", false;
    }

    /** The effect on `initialData` and `show`: fill in the item's texts, or
        clear the form, and forget the validation. */
    method Sync(initialData: Option<CatalogItem>)
      modifies this`nombre, this`descripcion, this`validated
      ensures FormData(nombre, descripcion) == Prefill(initialData)
      ensures !validated
    {
      if initialData.Some? {
        nombre := Or(initialData.value.nombre, "");
        descripcion := Or(initialData.value.descripcion, "");
      } else {
        nombre, descripcion := "", "";
      }
      validated := false;
    }

    method SetNombre(value: string)
      modifies this`nombre
      ensures nombre == value
    {
      nombre := value;
    }

    method SetDescripcion(value: string)
      modifies this`descripcion
      ensures descripcion == value
    {
      descripcion := value;
    }

    /** `onFormSubmit`: a blank name only turns the validation on; otherwise
        both texts, untrimmed, go to the page. */
    method Submit() returns (data: Option<FormData>)
      modifies this`validated
      ensures NameBlank(nombre) ==> data.None? && validated
      ensures !NameBlank(nombre) ==> data == Some(FormData(nombre, descripcion)) && validated == old(validated)
    {
      if nombre == "" || NameBlank(nombre) {
        validated := true;
        data := None;
      } else {
        data := Some(FormData(nombre, descripcion));
      }
    }

    /** The name field is flagged once a submission was rejected, while the
        name stays blank. */
    function NameInvalid(): (r: bool)
      reads this
      ensures r <==> validated && AllWhitespace(nombre)
    {
      BlankIff(nombre);
      validated && NameBlank(nombre)
    }
  }
}
