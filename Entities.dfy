/** The records the pages receive from the server and the shape of a
    finished network call. Amounts are whole cents. */
module Entities {
  import opened Text

  /** How an awaited request ended: its value, or a thrown error whose
      `message` may be missing. */
  datatype Outcome<+T> = Ok(value: T) | Fail(message: Option<string>)

  /** A react-bootstrap badge: background variant, optional text variant and caption. */
  datatype Badge = Badge(bg: string, text: Option<string>, caption: string)

  /** A tuition installment as listed on the payments page. */
  datatype Cuota = Cuota(id: int, periodo: string, monto: int, estado: string)

  /** The student a coupon belongs to; every field may be missing. */
  datatype Alumno = Alumno(nombreCompleto: Option<string>, username: Option<string>,
                           dni: Option<string>, legajo: Option<string>)

  /** An entry of the coupon-status catalogue. */
  datatype EstadoRef = EstadoRef(id: int, nombre: string)

  /** A generated coupon as the history and administration tables show it. */
  datatype Cupon = Cupon(id: int, alumno: Option<Alumno>, estado: Option<EstadoRef>,
                         pasarela: Option<string>, urlPdf: Option<string>, montoTotal: int)

  /** A catalogue row (coupon status or payment gateway) as the editing modals receive it. */
  datatype CatalogItem = CatalogItem(id: Option<int>, nombre: Option<string>, descripcion: Option<string>)

  /** The body the catalogue modals hand to the page. */
  datatype FormData = FormData(nombre: string, descripcion: string)

  /** `cupon.estado_cupon?.nombre`, the status name when there is a status. */
  function EstadoNombre(c: Cupon): Option<string>
  {
    if c.estado.Some? then Some(c.estado.value.nombre) else None
  }

  /** A possibly missing numeric id is truthy when it is present and not 0. */
  predicate IdTruthy(o: Option<int>)
  {
    o.Some? && o.value != 0
  }
}
