/** The student payments page: choosing installments, the amount due,
    generating a coupon and the lazily loaded coupon history. */
module MisPagos {
  import opened Text
  import opened Seqs
  import opened Entities

  // ---------------------------------------------------------------------------
  // Selection of installments

  /** `id => id !== cuotaId` */
  function Other(cuotaId: int): int -> bool
  {
    x => x != cuotaId
  }

  /** The updater `handleSelectCuota` hands to `setCuotasSeleccionadas`. */
  function Toggle(sel: seq<int>, cuotaId: int): seq<int>
  {
    if cuotaId in sel then Filter(sel, Other(cuotaId)) else sel + [cuotaId]
  }

  /** Toggling flips the membership of the clicked id and of no other id. */
  lemma ToggleMembership(sel: seq<int>, cuotaId: int)
    ensures forall x :: x in Toggle(sel, cuotaId) <==> (x in sel) != (x == cuotaId)
  {
    if cuotaId in sel {
      forall x | x in sel && x != cuotaId ensures x in Toggle(sel, cuotaId) {
        var i :| 0 <= i < |sel| && sel[i] == x;
        assert Other(cuotaId)(sel[i]);
      }
    }
  }

  /** The other ids keep their relative order: removing the clicked id from
      the selection gives the same sequence before and after the toggle. */
  lemma ToggleKeepsOthers(sel: seq<int>, cuotaId: int)
    ensures Filter(Toggle(sel, cuotaId), Other(cuotaId)) == Filter(sel, Other(cuotaId))
  {
    if cuotaId in sel {
      FilterIdempotent(sel, Other(cuotaId));
    } else {
      FilterAppend(sel, [cuotaId], Other(cuotaId));
      assert Filter([cuotaId], Other(cuotaId)) == [];
    }
  }

  /** A selection without repeated ids stays without repeated ids. */
  lemma ToggleNoDup(sel: seq<int>, cuotaId: int)
    requires NoDup(sel)
    ensures NoDup(Toggle(sel, cuotaId))
  {
    if cuotaId in sel {
      FilterNoDup(sel, Other(cuotaId));
    } else {
      AppendNoDup(sel, cuotaId);
    }
  }

  /** Clicking an unselected installment twice restores the selection exactly. */
  lemma ToggleTwiceAbsent(sel: seq<int>, cuotaId: int)
    requires cuotaId !in sel
    ensures Toggle(sel, cuotaId) == sel + [cuotaId]
    ensures Toggle(Toggle(sel, cuotaId), cuotaId) == sel
  {
    assert cuotaId in sel + [cuotaId];
    FilterAppend(sel, [cuotaId], Other(cuotaId));
    assert Filter([cuotaId], Other(cuotaId)) == [];
    FilterAllKept(sel, Other(cuotaId));
  }

  /** Clicking a selected installment twice keeps the same ids but moves the
      clicked one to the end. */
  lemma ToggleTwicePresent(sel: seq<int>, cuotaId: int)
    requires cuotaId in sel
    ensures cuotaId !in Toggle(sel, cuotaId)
    ensures Toggle(Toggle(sel, cuotaId), cuotaId) == Filter(sel, Other(cuotaId)) + [cuotaId]
  {
    ToggleMembership(sel, cuotaId);
  }

  /** The selection after a sequence of clicks. */
  function ApplyToggles(sel: seq<int>, clicks: seq<int>): seq<int>
    decreases |clicks|
  {
    if clicks == [] then sel else ApplyToggles(Toggle(sel, clicks[0]), clicks[1..])
  }

  /** Starting from the empty selection, any sequence of clicks yields a
      selection without repeated ids. */
  lemma {:induction false} TogglesNoDup(sel: seq<int>, clicks: seq<int>)
    requires NoDup(sel)
    ensures NoDup(ApplyToggles(sel, clicks))
    decreases |clicks|
  {
    if clicks != [] {
      ToggleNoDup(sel, clicks[0]);
      TogglesNoDup(Toggle(sel, clicks[0]), clicks[1..]);
    }
  }

  // ---------------------------------------------------------------------------
  // Amount due

  /** `c => cuotasSeleccionadas.includes(c.id)` */
  function Selected(sel: seq<int>): Cuota -> bool
  {
    (c: Cuota) => c.id in sel
  }

  /** `reduce((sum, c) => sum + c.monto, 0)` */
  function SumMontos(cs: seq<Cuota>): int
  {
    if cs == [] then 0 else cs[0].monto + SumMontos(cs[1..])
  }

  /** `totalAPagar`: the amounts of the loaded installments whose id is selected. */
  function TotalAPagar(cuotas: seq<Cuota>, sel: seq<int>): int
  {
    SumMontos(Filter(cuotas, Selected(sel)))
  }

  /** Each installment contributes its amount exactly when its id is selected. */
  lemma TotalCons(c: Cuota, rest: seq<Cuota>, sel: seq<int>)
    ensures TotalAPagar([c] + rest, sel) == (if c.id in sel then c.monto else 0) + TotalAPagar(rest, sel)
  {
    assert ([c] + rest)[1..] == rest;
  }

  /** With nothing selected the total is zero. */
  lemma TotalEmptySelection(cuotas: seq<Cuota>)
    ensures TotalAPagar(cuotas, []) == 0
  {
    FilterNone(cuotas, Selected([]));
  }

  /** The total depends only on which loaded installments are selected, not
      on the order of the selection nor on ids that match no installment. */
  lemma {:induction false} TotalCongruent(cuotas: seq<Cuota>, s1: seq<int>, s2: seq<int>)
    requires forall i :: 0 <= i < |cuotas| ==> (cuotas[i].id in s1 <==> cuotas[i].id in s2)
    ensures TotalAPagar(cuotas, s1) == TotalAPagar(cuotas, s2)
  {
    if cuotas != [] {
      assert cuotas == [cuotas[0]] + cuotas[1..];
      TotalCons(cuotas[0], cuotas[1..], s1);
      TotalCons(cuotas[0], cuotas[1..], s2);
      TotalCongruent(cuotas[1..], s1, s2);
    }
  }

  /** Selected ids absent from the loaded list add nothing. */
  lemma TotalIgnoresUnknownId(cuotas: seq<Cuota>, sel: seq<int>, x: int)
    requires forall i :: 0 <= i < |cuotas| ==> cuotas[i].id != x
    ensures TotalAPagar(cuotas, sel + [x]) == TotalAPagar(cuotas, sel)
  {
    TotalCongruent(cuotas, sel + [x], sel);
  }

  /** Installment ids are unique within the loaded list. */
  predicate UniqueIds(cuotas: seq<Cuota>)
  {
    forall i, j :: 0 <= i < j < |cuotas| ==> cuotas[i].id != cuotas[j].id
  }

  /** Clicking a listed installment adds its amount to the total when it was
      not selected and subtracts it when it was. */
  lemma {:induction false} TotalAfterToggle(cuotas: seq<Cuota>, sel: seq<int>, k: int)
    requires UniqueIds(cuotas) && 0 <= k < |cuotas|
    ensures TotalAPagar(cuotas, Toggle(sel, cuotas[k].id))
         == TotalAPagar(cuotas, sel) + (if cuotas[k].id in sel then -cuotas[k].monto else cuotas[k].monto)
  {
    var id := cuotas[k].id;
    var t := Toggle(sel, id);
    var rest := cuotas[1..];
    assert cuotas == [cuotas[0]] + rest;
    TotalCons(cuotas[0], rest, sel);
    TotalCons(cuotas[0], rest, t);
    ToggleAt(sel, id, cuotas[0].id);
    if k == 0 {
      forall i | 0 <= i < |rest| ensures (rest[i].id in t <==> rest[i].id in sel) {
        assert rest[i].id == cuotas[i + 1].id;
        ToggleAt(sel, id, rest[i].id);
      }
      TotalCongruent(rest, t, sel);
    } else {
      assert rest[k - 1] == cuotas[k];
      assert UniqueIds(rest) by {
        forall i, j | 0 <= i < j < |rest| ensures rest[i].id != rest[j].id {
          assert rest[i] == cuotas[i + 1] && rest[j] == cuotas[j + 1];
        }
      }
      TotalAfterToggle(rest, sel, k - 1);
    }
  }

  /** Membership of one id after a toggle. */
  lemma ToggleAt(sel: seq<int>, cuotaId: int, x: int)
    ensures x in Toggle(sel, cuotaId) <==> (x in sel) != (x == cuotaId)
  {
    ToggleMembership(sel, cuotaId);
  }

  /** With non-negative amounts the total lies between zero and the sum of all installments. */
  lemma {:induction false} TotalBounds(cuotas: seq<Cuota>, sel: seq<int>)
    requires forall i :: 0 <= i < |cuotas| ==> cuotas[i].monto >= 0
    ensures 0 <= TotalAPagar(cuotas, sel) <= SumMontos(cuotas)
  {
    if cuotas != [] {
      assert cuotas == [cuotas[0]] + cuotas[1..];
      TotalCons(cuotas[0], cuotas[1..], sel);
      TotalBounds(cuotas[1..], sel);
    }
  }

  // ---------------------------------------------------------------------------
  // Generation gating and failure classification

  /** `isGenerarDisabled` */
  function IsGenerarDisabled(sel: seq<int>, pasarela: string): bool
  {
    |sel| == 0 || pasarela == ""
  }

  const WarningPrefix := "ADVERTENCIA"
  const ConflictWarning := WarningPrefix + ": Una o más de las cuotas seleccionadas ya tienen un cupón activo. No se generó uno nuevo."
  const GenericGenerationError := "Ocurrió un error al generar el cupón."

  /** The text `handleGenerarCupon` stores in `generationError` for a failure. */
  function GenerationErrorMessage(message: Option<string>): string
  {
    if Truthy(message) && Contains(message.value, "409") then ConflictWarning
    else Or(message, GenericGenerationError)
  }

  /** The variant of the alert that shows a generation error. */
  function AlertVariant(generationError: string): string
  {
    if StartsWith(generationError, WarningPrefix) then "warning" else "danger"
  }

  /** A failure whose message mentions 409 is shown as the conflict warning;
      a failure without a message is shown as the generic error. */
  lemma GenerationAlert(message: Option<string>)
    ensures Truthy(message) && Contains(message.value, "409") ==>
              GenerationErrorMessage(message) == ConflictWarning && AlertVariant(ConflictWarning) == "warning"
    ensures !Truthy(message) ==>
              GenerationErrorMessage(message) == GenericGenerationError && AlertVariant(GenericGenerationError) == "danger"
  {
    assert ConflictWarning[..|WarningPrefix|] == WarningPrefix;
    DangerUnlessA(GenericGenerationError);
  }

  /** A text that does not start with the letter A is never shown as a warning. */
  lemma DangerUnlessA(e: string)
    requires e != [] && e[0] != 'A'
    ensures AlertVariant(e) == "danger"
  {
    if |WarningPrefix| <= |e| {
      assert e[..|WarningPrefix|][0] == e[0];
    }
  }

  /** For a message of the shape the coupon client throws, `Error <status>: <detail>`,
      the alert is a warning exactly when the message contains 409, and
      otherwise it shows the message itself. */
  lemma ApiErrorAlert(status: string, detail: string)
    ensures var m := "Error " + status + ": " + detail;
            && (AlertVariant(GenerationErrorMessage(Some(m))) == "warning" <==> Contains(m, "409"))
            && (!Contains(m, "409") ==> GenerationErrorMessage(Some(m)) == m)
  {
    var m := "Error " + status + ": " + detail;
    GenerationAlert(Some(m));
    assert m[0] == 'E';
    if !Contains(m, "409") {
      DangerUnlessA(m);
    }
  }

  /** A 409 response is always reported as the conflict warning. */
  lemma ConflictStatusWarns(detail: string)
    ensures GenerationErrorMessage(Some("Error 409: " + detail)) == ConflictWarning
  {
    assert StartsWith("409", "409");
    ContainsInContext("Error ", "409", ": " + detail, "409");
    assert "Error " + "409" + (": " + detail) == "Error 409: " + detail;
  }

  /** `getEstadoBadge`: the installment status badge. */
  function CuotaBadge(nombre: string): (b: Badge)
    ensures b.caption == nombre
    ensures b.bg == "danger" <==> nombre == "Vencida"
    ensures b.bg == "warning" <==> nombre == "Pendiente"
    ensures b.text.Some? <==> nombre == "Pendiente"
  {
    match nombre
    case "Vencida" => Badge("danger", None, "Vencida")
    case "Pendiente" => Badge("warning", Some("dark"), "Pendiente")
    case _ => Badge("secondary", None, nombre)
  }

  // ---------------------------------------------------------------------------
  // Page state

  /** What `generarCupon` is called with: the selected ids and the key only. */
  datatype GenerateRequest = GenerateRequest(cuotasIds: seq<int>, idempotencyKey: string)

  /** The coupon the success modal shows. */
  datatype GeneratedCoupon = GeneratedCoupon(id: int, montoTotal: int, urlPdf: Option<string>)

  const CuotasLoadError := "Ocurrió un error al cargar las cuotas."
  const HistorialLoadError := "Ocurrió un error al cargar el historial."

  class MisPagosPage {
    var cuotas: seq<Cuota>
    var isLoading: bool
    var error: Option<string>
    var selection: seq<int>
    var pasarela: string
    var isGenerating: bool
    var generationError: Option<string>
    var generatedCoupon: Option<GeneratedCoupon>
    var historial: seq<Cupon>
    var isLoadingHistorial: bool
    var errorHistorial: Option<string>

    /** The selection never holds an id twice. */
    ghost predicate Valid()
      reads this
    {
      NoDup(selection)
    }

    constructor ()
      ensures Valid()
      ensures cuotas == [] && isLoading && error == None
      ensures selection == [] && pasarela == "" && !isGenerating
      ensures generationError == None && generatedCoupon == None
      ensures historial == [] && !isLoadingHistorial && errorHistorial == None
    {
      cuotas, isLoading, error := [], true, None;
      selection, pasarela, isGenerating := [], "", false;
      generationError, generatedCoupon := None, None;
      historial, isLoadingHistorial, errorHistorial := [], false, None;
    }

    function Total(): int
      reads this
    {
      TotalAPagar(cuotas, selection)
    }

    function GenerarDisabled(): bool
      reads this
    {
      IsGenerarDisabled(selection, pasarela)
    }

    /** `fetchCuotas`, run to completion with the given outcome. */
    method FetchCuotas(outcome: Outcome<seq<Cuota>>)
      modifies this`cuotas, this`isLoading, this`error
      ensures !isLoading
      ensures outcome.Ok? ==> cuotas == outcome.value && error == None
      ensures outcome.Fail? ==> cuotas == old(cuotas) && error == Some(Or(outcome.message, CuotasLoadError))
    {
      isLoading := true;
      error := None;
      match outcome {
        case Ok(data) => cuotas := data;
        case Fail(m) => error := Some(Or(m, CuotasLoadError));
      }
      isLoading := false;
    }

    /** A click on an installment row. */
    method SelectCuota(cuotaId: int)
      requires Valid()
      modifies this`selection
      ensures Valid()
      ensures selection == Toggle(old(selection), cuotaId)
    {
      ToggleNoDup(selection, cuotaId);
      selection := Toggle(selection, cuotaId);
    }

    /** The gateway selector; it is disabled while nothing is selected. */
    method SelectPasarela(value: string)
      modifies this`pasarela
      ensures pasarela == if |selection| == 0 then old(pasarela) else value
    {
      if |selection| != 0 {
        pasarela := value;
      }
    }

    /** `handleGenerarCupon` with a fresh key and the outcome of the request.
        Returns the request sent, if any, and whether the installments are reloaded. */
    method GenerarCupon(key: string, outcome: Outcome<GeneratedCoupon>) returns (sent: Option<GenerateRequest>, reloadCuotas: bool)
      requires Valid()
      modifies this`isGenerating, this`generationError, this`generatedCoupon, this`selection, this`pasarela
      ensures Valid()
      ensures old(GenerarDisabled() || isGenerating) ==>
                sent == None && !reloadCuotas && isGenerating == old(isGenerating)
                && selection == old(selection) && pasarela == old(pasarela)
                && generationError == old(generationError) && generatedCoupon == old(generatedCoupon)
      ensures !old(GenerarDisabled() || isGenerating) ==>
                sent == Some(GenerateRequest(old(selection), key)) && !isGenerating
      ensures !old(GenerarDisabled() || isGenerating) && outcome.Ok? ==>
                generatedCoupon == Some(outcome.value) && generationError == None && reloadCuotas
                && selection == [] && pasarela == ""
      ensures !old(GenerarDisabled() || isGenerating) && outcome.Fail? ==>
                generatedCoupon == None && generationError == Some(GenerationErrorMessage(outcome.message))
                && !reloadCuotas && selection == old(selection) && pasarela == old(pasarela)
    {
      if GenerarDisabled() || isGenerating {
        return None, false;
      }
      isGenerating := true;
      generationError := None;
      generatedCoupon := None;
      sent := Some(GenerateRequest(selection, key));
      reloadCuotas := false;
      match outcome {
        case Ok(result) =>
          generatedCoupon := Some(result);
          reloadCuotas := true;
          selection := [];
          pasarela := "";
        case Fail(m) =>
          generationError := Some(GenerationErrorMessage(m));
      }
      isGenerating := false;
    }

    /** Closing the error alert. */
    method DismissGenerationError()
      modifies this`generationError
      ensures generationError == None
    {
      generationError := None;
    }

    /** Closing the success modal. */
    method CloseSuccessModal()
      modifies this`generatedCoupon
      ensures generatedCoupon == None
    {
      generatedCoupon := None;
    }

    /** `fetchHistorial`, run to completion with the given outcome. */
    method FetchHistorial(outcome: Outcome<seq<Cupon>>)
      modifies this`historial, this`isLoadingHistorial, this`errorHistorial
      ensures !isLoadingHistorial
      ensures outcome.Ok? ==> historial == outcome.value && errorHistorial == None
      ensures outcome.Fail? ==> historial == old(historial) && errorHistorial == Some(Or(outcome.message, HistorialLoadError))
    {
      isLoadingHistorial := true;
      errorHistorial := None;
      match outcome {
        case Ok(data) => historial := data;
        case Fail(m) => errorHistorial := Some(Or(m, HistorialLoadError));
      }
      isLoadingHistorial := false;
    }

    /** The tabs' `onSelect`: the history is fetched only when the coupons tab
        is chosen while the history is empty and not loading. */
    method OnSelectTab(tab: string, outcome: Outcome<seq<Cupon>>) returns (fetched: bool)
      modifies this`historial, this`isLoadingHistorial, this`errorHistorial
      ensures fetched == (tab == "mis-cupones" && old(historial) == [] && !old(isLoadingHistorial))
      ensures !fetched ==> historial == old(historial) && isLoadingHistorial == old(isLoadingHistorial)
                           && errorHistorial == old(errorHistorial)
      ensures fetched ==> !isLoadingHistorial
      ensures fetched && outcome.Ok? ==> historial == outcome.value && errorHistorial == None
      ensures fetched && outcome.Fail? ==> historial == [] && errorHistorial == Some(Or(outcome.message, HistorialLoadError))
    {
      fetched := tab == "mis-cupones" && |historial| == 0 && !isLoadingHistorial;
      if fetched {
        FetchHistorial(outcome);
      }
    }
  }
}
