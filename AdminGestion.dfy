/** The administration page for coupons: filtering by status and by a search
    over the student, the optimistic status change and the void dialog. */
module AdminGestion {
  import opened Text
  import opened Seqs
  import opened Entities

  // ---------------------------------------------------------------------------
  // Filtering

  /** `cupon => cupon.estado_cupon?.nombre === estadoFilter` */
  function HasEstado(estadoFilter: string): Cupon -> bool
  {
    (c: Cupon) => EstadoNombre(c) == Some(estadoFilter)
  }

  /** `cupon.alumno?.<field>` */
  function AlumnoField(c: Cupon, f: Alumno -> Option<string>): Option<string>
  {
    if c.alumno.Some? then f(c.alumno.value) else None
  }

  /** The three texts the search looks at, lower-cased: the name (full name,
      else user name), the DNI and the legajo, each "" when missing. */
  function SearchName(c: Cupon): string
  {
    ToLower(Or(AlumnoField(c, (a: Alumno) => a.nombreCompleto), Or(AlumnoField(c, (a: Alumno) => a.username), "")))
  }

  function SearchDni(c: Cupon): string
  {
    ToLower(Or(AlumnoField(c, (a: Alumno) => a.dni), ""))
  }

  function SearchLegajo(c: Cupon): string
  {
    ToLower(Or(AlumnoField(c, (a: Alumno) => a.legajo), ""))
  }

  /** The search predicate for an already lower-cased and trimmed term. */
  function MatchesSearch(busqueda: string): Cupon -> bool
  {
    (c: Cupon) => Contains(SearchName(c), busqueda) || Contains(SearchDni(c), busqueda) || Contains(SearchLegajo(c), busqueda)
  }

  /** `searchTerm.toLowerCase().trim()` */
  function Busqueda(searchTerm: string): string
  {
    Trim(ToLower(searchTerm))
  }

  /** `cuponesFiltrados`: the status filter first, then the search. */
  function FilterCupones(cupones: seq<Cupon>, searchTerm: string, estadoFilter: string): seq<Cupon>
  {
    var busqueda := Busqueda(searchTerm);
    var porEstado := if estadoFilter != "" then Filter(cupones, HasEstado(estadoFilter)) else cupones;
    if busqueda != "" then Filter(porEstado, MatchesSearch(busqueda)) else porEstado
  }

  /** Whether one coupon passes both filters, stated per coupon. */
  predicate Kept(c: Cupon, searchTerm: string, estadoFilter: string)
  {
    && (estadoFilter == "" || EstadoNombre(c) == Some(estadoFilter))
    && (Busqueda(searchTerm) == "" || MatchesSearch(Busqueda(searchTerm))(c))
  }

  function KeptBy(searchTerm: string, estadoFilter: string): Cupon -> bool
  {
    (c: Cupon) => Kept(c, searchTerm, estadoFilter)
  }

  /** The filter chain is one filter with the per-coupon predicate `Kept`. */
  lemma FilterCuponesIsFilter(cupones: seq<Cupon>, searchTerm: string, estadoFilter: string)
    ensures FilterCupones(cupones, searchTerm, estadoFilter) == Filter(cupones, KeptBy(searchTerm, estadoFilter))
  {
    var busqueda := Busqueda(searchTerm);
    var k := KeptBy(searchTerm, estadoFilter);
    var e := HasEstado(estadoFilter);
    var m := MatchesSearch(busqueda);
    if estadoFilter != "" && busqueda != "" {
      FilterCompose(cupones, e, m);
      FilterCongruent(cupones, Both(e, m), k);
    } else if estadoFilter != "" {
      FilterCongruent(cupones, e, k);
    } else if busqueda != "" {
      FilterCongruent(cupones, m, k);
    } else {
      FilterAllKept(cupones, k);
    }
  }

  /** The filtered coupons are the loaded coupons that pass both filters, in
      their original relative order. */
  lemma FilteredIsOrderedSubset(cupones: seq<Cupon>, searchTerm: string, estadoFilter: string)
    ensures var r := FilterCupones(cupones, searchTerm, estadoFilter);
            && IsSubsequence(r, cupones)
            && (forall i :: 0 <= i < |r| ==> Kept(r[i], searchTerm, estadoFilter))
            && (forall i :: 0 <= i < |cupones| && Kept(cupones[i], searchTerm, estadoFilter) ==> cupones[i] in r)
  {
    FilterCuponesIsFilter(cupones, searchTerm, estadoFilter);
    FilterIsSubsequence(cupones, KeptBy(searchTerm, estadoFilter));
  }

  /** With a status filter set, every coupon kept has exactly that status name. */
  lemma StatusFilterExact(cupones: seq<Cupon>, searchTerm: string, estadoFilter: string)
    requires estadoFilter != ""
    ensures forall c :: c in FilterCupones(cupones, searchTerm, estadoFilter) ==>
              c.estado.Some? && c.estado.value.nombre == estadoFilter
  {
    FilteredIsOrderedSubset(cupones, searchTerm, estadoFilter);
  }

  /** A search term made of whitespace only, with no status filter, keeps every coupon. */
  lemma EmptyFiltersKeepAll(cupones: seq<Cupon>, searchTerm: string)
    requires AllWhitespace(searchTerm)
    ensures FilterCupones(cupones, searchTerm, "") == cupones
  {
    var low := ToLower(searchTerm);
    assert AllWhitespace(low) by {
      forall i | 0 <= i < |low| ensures IsWhitespace(low[i]) {
        assert IsWhitespace(searchTerm[i]);
      }
    }
    BlankIff(low);
  }

  /** The search with a non-blank term keeps a coupon exactly when the term
      occurs, ignoring case, in its student's name, DNI or legajo. */
  lemma SearchSemantics(cupones: seq<Cupon>, searchTerm: string, c: Cupon)
    requires Busqueda(searchTerm) != ""
    ensures var t := Busqueda(searchTerm);
            c in FilterCupones(cupones, searchTerm, "") <==>
              c in cupones && (Contains(SearchName(c), t) || Contains(SearchDni(c), t) || Contains(SearchLegajo(c), t))
  {
    FilteredIsOrderedSubset(cupones, searchTerm, "");
  }

  /** Applying the same filters to the filtered list changes nothing. */
  lemma FilterCuponesIdempotent(cupones: seq<Cupon>, searchTerm: string, estadoFilter: string)
    ensures var r := FilterCupones(cupones, searchTerm, estadoFilter);
            FilterCupones(r, searchTerm, estadoFilter) == r
  {
    var r := FilterCupones(cupones, searchTerm, estadoFilter);
    FilterCuponesIsFilter(cupones, searchTerm, estadoFilter);
    FilterCuponesIsFilter(r, searchTerm, estadoFilter);
    FilterIdempotent(cupones, KeptBy(searchTerm, estadoFilter));
  }

  // ---------------------------------------------------------------------------
  // Status change

  /** `opcionesEstado.find(opt => opt.id === id)`: the first option with the id. */
  function FindOption(opciones: seq<EstadoRef>, id: int): (r: Option<EstadoRef>)
    ensures r.Some? ==> r.value in opciones && r.value.id == id
    ensures r.None? <==> forall i :: 0 <= i < |opciones| ==> opciones[i].id != id
    ensures r.Some? ==> exists k :: 0 <= k < |opciones| && opciones[k] == r.value
                                    && forall j :: 0 <= j < k ==> opciones[j].id != id
  {
    if opciones == [] then None
    else if opciones[0].id == id then Some(opciones[0])
    else FindOption(opciones[1..], id)
  }

  /** `cupones.find(c => c.id === cuponId)`: the first coupon with the id. */
  function FindCupon(cupones: seq<Cupon>, cuponId: int): (r: Option<Cupon>)
    ensures r.Some? ==> r.value in cupones && r.value.id == cuponId
    ensures r.None? <==> forall i :: 0 <= i < |cupones| ==> cupones[i].id != cuponId
    ensures r.Some? ==> exists k :: 0 <= k < |cupones| && cupones[k] == r.value
                                    && forall j :: 0 <= j < k ==> cupones[j].id != cuponId
  {
    if cupones == [] then None
    else if cupones[0].id == cuponId then Some(cupones[0])
    else FindCupon(cupones[1..], cuponId)
  }

  /** The `map` that gives the coupon with the given id its new status. */
  function ReplaceEstado(cupones: seq<Cupon>, cuponId: int, nuevo: Option<EstadoRef>): seq<Cupon>
  {
    seq(|cupones|, i requires 0 <= i < |cupones| =>
      if cupones[i].id == cuponId then cupones[i].(estado := nuevo) else cupones[i])
  }

  /** Coupon ids are unique within the loaded list. */
  predicate UniqueCuponIds(cupones: seq<Cupon>)
  {
    forall i, j :: 0 <= i < j < |cupones| ==> cupones[i].id != cupones[j].id
  }

  /** Only the coupon with the given id changes, and only in its status; the
      length and every other coupon stay the same. */
  lemma OnlyTargetChanges(cupones: seq<Cupon>, cuponId: int, nuevo: Option<EstadoRef>, k: int)
    requires UniqueCuponIds(cupones) && 0 <= k < |cupones| && cupones[k].id == cuponId
    ensures var r := ReplaceEstado(cupones, cuponId, nuevo);
            && |r| == |cupones|
            && r[k] == cupones[k].(estado := nuevo)
            && (forall i :: 0 <= i < |r| && i != k ==> r[i] == cupones[i])
  {
  }

  /** A change for an id that is not loaded leaves the list as it is. */
  lemma ReplaceAbsentNoop(cupones: seq<Cupon>, cuponId: int, nuevo: Option<EstadoRef>)
    requires forall i :: 0 <= i < |cupones| ==> cupones[i].id != cuponId
    ensures ReplaceEstado(cupones, cuponId, nuevo) == cupones
  {
  }

  // ---------------------------------------------------------------------------
  // Page state

  /** The counters the server reports with the list. */
  datatype Estadisticas = Estadisticas(total: int, activos: int, pagados: int, vencidos: int, anulados: int)

  /** What `getAdminCupones` returns. */
  datatype AdminData = AdminData(cupones: seq<Cupon>, estadisticas: Option<Estadisticas>, opcionesEstado: seq<EstadoRef>)

  datatype VoidRequest = VoidRequest(cuponId: int, motivo: string)
  datatype StatusRequest = StatusRequest(cuponId: int, estadoId: int)

  const LoadError := "Error al cargar cupones."
  const VoidError := "Error al anular."

  class AdminGestionPage {
    var cupones: seq<Cupon>
    var estadisticas: Option<Estadisticas>
    var isLoading: bool
    var error: Option<string>
    var searchTerm: string
    var estadoFilter: string
    var opcionesEstado: seq<EstadoRef>
    var showAnularModal: bool
    var cuponParaAnular: Option<int>
    var isAnulando: bool
    var errorAnulacion: Option<string>

    constructor ()
      ensures cupones == [] && estadisticas == None && isLoading && error == None
      ensures searchTerm == "" && estadoFilter == "" && opcionesEstado == []
      ensures !showAnularModal && cuponParaAnular == None && !isAnulando && errorAnulacion == None
    {
      cupones, estadisticas, isLoading, error := [], None, true, None;
      searchTerm, estadoFilter, opcionesEstado := "", "", [];
      showAnularModal, cuponParaAnular, isAnulando, errorAnulacion := false, None, false, None;
    }

    /** The list the table shows. */
    function Filtered(): seq<Cupon>
      reads this
    {
      FilterCupones(cupones, searchTerm, estadoFilter)
    }

    /** `fetchAdminCupones`, run to completion with the given outcome. */
    method FetchAdminCupones(outcome: Outcome<AdminData>)
      modifies this`cupones, this`estadisticas, this`opcionesEstado, this`isLoading, this`error
      ensures !isLoading
      ensures outcome.Ok? ==> cupones == outcome.value.cupones && estadisticas == outcome.value.estadisticas
                              && opcionesEstado == outcome.value.opcionesEstado && error == None
      ensures outcome.Fail? ==> cupones == old(cupones) && estadisticas == old(estadisticas)
                                && opcionesEstado == old(opcionesEstado) && error == Some(Or(outcome.message, LoadError))
    {
      isLoading := true;
      error := None;
      match outcome {
        case Ok(data) =>
          cupones := data.cupones;
          estadisticas := data.estadisticas;
          opcionesEstado := data.opcionesEstado;
        case Fail(m) =>
          error := Some(Or(m, LoadError));
      }
      isLoading := false;
    }

    method SetSearchTerm(value: string)
      modifies this`searchTerm
      ensures searchTerm == value
    {
      searchTerm := value;
    }

    method SetEstadoFilter(value: string)
      modifies this`estadoFilter
      ensures estadoFilter == value
    {
      estadoFilter := value;
    }

    /** The "Limpiar" button: afterwards the table shows every loaded coupon. */
    method ClearFilters()
      modifies this`searchTerm, this`estadoFilter
      ensures searchTerm == "" && estadoFilter == ""
      ensures Filtered() == cupones
    {
      searchTerm, estadoFilter := "", "";
      EmptyFiltersKeepAll(cupones, searchTerm);
    }

    /** `handleOpenAnularModal` */
    method OpenAnularModal(cuponId: int)
      modifies this`cuponParaAnular, this`errorAnulacion, this`showAnularModal
      ensures cuponParaAnular == Some(cuponId) && errorAnulacion == None && showAnularModal
    {
      cuponParaAnular := Some(cuponId);
      errorAnulacion := None;
      showAnularModal := true;
    }

    /** `handleCloseAnularModal` */
    method CloseAnularModal()
      modifies this`cuponParaAnular, this`errorAnulacion, this`showAnularModal
      ensures cuponParaAnular == None && errorAnulacion == None && !showAnularModal
    {
      showAnularModal := false;
      cuponParaAnular := None;
      errorAnulacion := None;
    }

    /** `handleConfirmAnular` with the outcome of the void request. Nothing is
        sent without a selected coupon or with an empty reason. */
    method ConfirmAnular(motivo: string, outcome: Outcome<()>) returns (sent: Option<VoidRequest>, reload: bool)
      modifies this`isAnulando, this`errorAnulacion, this`showAnularModal, this`cuponParaAnular
      ensures !IdTruthy(old(cuponParaAnular)) || motivo == "" ==>
                sent == None && !reload && isAnulando == old(isAnulando) && errorAnulacion == old(errorAnulacion)
                && showAnularModal == old(showAnularModal) && cuponParaAnular == old(cuponParaAnular)
      ensures IdTruthy(old(cuponParaAnular)) && motivo != "" ==>
                sent == Some(VoidRequest(old(cuponParaAnular).value, motivo)) && !isAnulando
      ensures IdTruthy(old(cuponParaAnular)) && motivo != "" && outcome.Ok? ==>
                reload && !showAnularModal && cuponParaAnular == None && errorAnulacion == None
      ensures IdTruthy(old(cuponParaAnular)) && motivo != "" && outcome.Fail? ==>
                !reload && showAnularModal == old(showAnularModal) && cuponParaAnular == old(cuponParaAnular)
                && errorAnulacion == Some(Or(outcome.message, VoidError))
    {
      if !IdTruthy(cuponParaAnular) || motivo == "" {
        return None, false;
      }
      isAnulando := true;
      errorAnulacion := None;
      sent := Some(VoidRequest(cuponParaAnular.value, motivo));
      reload := false;
      match outcome {
        case Ok(_) =>
          CloseAnularModal();
          reload := true;
        case Fail(m) =>
          errorAnulacion := Some(Or(m, VoidError));
      }
      isAnulando := false;
    }

    /** `handleEstadoChange` with the outcome of the update. Choosing the
        current status does nothing; a success replaces the status of that
        coupon only, a failure reloads the list. A coupon that is not loaded,
        or that has no status, makes the handler throw before sending. */
    method EstadoChange(cuponId: int, nuevoEstadoId: int, outcome: Outcome<()>) returns (sent: Option<StatusRequest>, reload: bool)
      modifies this`cupones
      ensures var actual := FindCupon(old(cupones), cuponId);
              actual.None? || actual.value.estado.None? || actual.value.estado.value.id == nuevoEstadoId ==>
                sent == None && !reload && cupones == old(cupones)
      ensures var actual := FindCupon(old(cupones), cuponId);
              actual.Some? && actual.value.estado.Some? && actual.value.estado.value.id != nuevoEstadoId ==>
                && sent == Some(StatusRequest(cuponId, nuevoEstadoId))
                && (outcome.Ok? ==> !reload && cupones == ReplaceEstado(old(cupones), cuponId, FindOption(opcionesEstado, nuevoEstadoId)))
                && (outcome.Fail? ==> reload && cupones == old(cupones))
    {
      var actual := FindCupon(cupones, cuponId);
      if actual.None? || actual.value.estado.None? || actual.value.estado.value.id == nuevoEstadoId {
        return None, false;
      }
      sent := Some(StatusRequest(cuponId, nuevoEstadoId));
      match outcome {
        case Ok(_) =>
          cupones := ReplaceEstado(cupones, cuponId, FindOption(opcionesEstado, nuevoEstadoId));
          reload := false;
        case Fail(_) =>
          reload := true;
      }
    }
  }
}
