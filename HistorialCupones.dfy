/** The coupon table shared by the student history and the administration
    page: status badges, fallbacks for missing fields and which buttons a
    row offers. */
module HistorialCupones {
  import opened Text
  import opened Entities

  /** The four status names the table knows. */
  predicate IsKnownStatus(nombre: Option<string>)
  {
    nombre == Some("Activo") || nombre == Some("Vencido") || nombre == Some("Pagado") || nombre == Some("Anulado")
  }

  /** `getEstadoCuponBadge`: every status is labelled with its name, unknown
      ones on a light badge, and only a missing or empty name reads "Desconocido". */
  function EstadoCuponBadge(nombre: Option<string>): (b: Badge)
    ensures b.bg == "success" <==> nombre == Some("Activo")
    ensures b.bg == "danger" <==> nombre == Some("Vencido")
    ensures b.bg == "info" <==> nombre == Some("Pagado")
    ensures b.bg == "secondary" <==> nombre == Some("Anulado")
    ensures b.bg == "light" <==> !IsKnownStatus(nombre)
    ensures b.text.Some? <==> !IsKnownStatus(nombre)
    ensures b.caption == Or(nombre, "Desconocido")
  {
    if nombre == Some("Activo") then Badge("success", None, "Activo")
    else if nombre == Some("Vencido") then Badge("danger", None, "Vencido")
    else if nombre == Some("Pagado") then Badge("info", None, "Pagado")
    else if nombre == Some("Anulado") then Badge("secondary", None, "Anulado")
    else Badge("light", Some("dark"), Or(nombre, "Desconocido"))
  }

  /** The void button is disabled on the terminal states. */
  function AnularDisabled(nombre: Option<string>): bool
  {
    nombre == Some("Anulado") || nombre == Some("Pagado")
  }

  /** The student columns of the administration view. */
  datatype StudentColumns = StudentColumns(nombre: string, dni: string, legajo: string)

  /** `cupon.alumno?.field`, missing when there is no student. */
  function Field(alumno: Option<Alumno>, f: Alumno -> Option<string>): Option<string>
  {
    if alumno.Some? then f(alumno.value) else None
  }

  /** The student columns fall back from full name to user name to "N/A",
      and DNI and legajo to "N/A"; no column is ever empty. */
  function StudentColumnsOf(alumno: Option<Alumno>): (r: StudentColumns)
    ensures r.nombre != "" && r.dni != "" && r.legajo != ""
    ensures alumno.Some? && Truthy(alumno.value.nombreCompleto) ==> r.nombre == alumno.value.nombreCompleto.value
    ensures alumno.Some? && !Truthy(alumno.value.nombreCompleto) && Truthy(alumno.value.username) ==>
              r.nombre == alumno.value.username.value
    ensures (alumno.None? || (!Truthy(alumno.value.nombreCompleto) && !Truthy(alumno.value.username))) ==> r.nombre == "N/A"
    ensures r.dni == if alumno.Some? && Truthy(alumno.value.dni) then alumno.value.dni.value else "N/A"
    ensures r.legajo == if alumno.Some? && Truthy(alumno.value.legajo) then alumno.value.legajo.value else "N/A"
  {
    StudentColumns(
      Or(Field(alumno, (a: Alumno) => a.nombreCompleto), Or(Field(alumno, (a: Alumno) => a.username), "N/A")),
      Or(Field(alumno, (a: Alumno) => a.dni), "N/A"),
      Or(Field(alumno, (a: Alumno) => a.legajo), "N/A"))
  }

  /** The download cell: a link to the document, or a disabled button. */
  datatype PdfButton = Download(href: string) | Unavailable

  function PdfButtonFor(urlPdf: Option<string>): (r: PdfButton)
    ensures r.Download? <==> Truthy(urlPdf)
    ensures r.Download? ==> r.href == urlPdf.value
  {
    if Truthy(urlPdf) then Download(urlPdf.value) else Unavailable
  }

  /** The status cell: the administrator's selector, or the student's badge. */
  datatype EstadoCell =
    | Selector(value: Option<int>, options: seq<EstadoRef>, className: string)
    | BadgeCell(badge: Badge)

  /** The colour classes of the administrator's status selector. */
  function SelectClass(nombre: Option<string>): string
  {
    if nombre == Some("Activo") then "border-success text-success"
    else if nombre == Some("Vencido") then "border-danger text-danger"
    else if nombre == Some("Anulado") then "border-secondary text-secondary"
    else ""
  }

  /** One rendered row. `anular` is present in the administration view and
      tells whether the void button is disabled. */
  datatype RowView = RowView(id: int, student: Option<StudentColumns>, pasarela: string,
                             estado: EstadoCell, pdf: PdfButton, anular: Option<bool>)

  /** The row of one coupon. The administrator sees the student columns, a
      status selector and a void button; the student sees only the badge. */
  function RenderRow(c: Cupon, isAdminView: bool, opcionesEstado: Option<seq<EstadoRef>>): (r: RowView)
    ensures r.id == c.id
    ensures r.student.Some? <==> isAdminView
    ensures r.estado.Selector? <==> isAdminView
    ensures r.anular.Some? <==> isAdminView
    ensures isAdminView ==> r.anular == Some(AnularDisabled(EstadoNombre(c)))
    ensures !isAdminView ==> r.estado == BadgeCell(EstadoCuponBadge(EstadoNombre(c)))
    ensures r.pdf.Download? <==> Truthy(c.urlPdf)
    ensures r.pasarela != ""
  {
    var nombre := EstadoNombre(c);
    var estado :=
      if isAdminView then
        Selector(if c.estado.Some? && c.estado.value.id != 0 then Some(c.estado.value.id) else None,
                 if opcionesEstado.Some? then opcionesEstado.value else [],
                 SelectClass(nombre))
      else BadgeCell(EstadoCuponBadge(nombre));
    RowView(c.id,
            if isAdminView then Some(StudentColumnsOf(c.alumno)) else None,
            Or(c.pasarela, "N/A"),
            estado,
            PdfButtonFor(c.urlPdf),
            if isAdminView then Some(AnularDisabled(nombre)) else None)
  }

  /** `HistorialCuponesTabla`: nothing for a missing or empty list, otherwise
      one row per coupon in the same order. */
  function RenderTable(cupones: Option<seq<Cupon>>, isAdminView: bool, opcionesEstado: Option<seq<EstadoRef>>): (r: Option<seq<RowView>>)
    ensures r.None? <==> cupones.None? || cupones.value == []
    ensures r.Some? ==> |r.value| == |cupones.value|
    ensures r.Some? ==> forall i :: 0 <= i < |r.value| ==> r.value[i] == RenderRow(cupones.value[i], isAdminView, opcionesEstado)
  {
    if cupones.None? || cupones.value == [] then None
    else Some(seq(|cupones.value|, i requires 0 <= i < |cupones.value| => RenderRow(cupones.value[i], isAdminView, opcionesEstado)))
  }

  /** In the administration view the void button of row i is disabled
      exactly when that coupon is voided or paid. */
  lemma AnularButtonRule(cupones: seq<Cupon>, opcionesEstado: Option<seq<EstadoRef>>, i: int)
    requires 0 <= i < |cupones|
    ensures var t := RenderTable(Some(cupones), true, opcionesEstado);
            t.Some? && t.value[i].anular == Some(EstadoNombre(cupones[i]) in {Some("Anulado"), Some("Pagado")})
  {
  }
}
