/** The dialog that asks for the reason before a coupon is voided. */
module AnularCuponModal {
  import opened Text

  /** What the dialog shows: the error of the last attempt, whether the
      reason is flagged, whether the buttons are disabled and the caption of
      the confirm button. */
  datatype ModalView = ModalView(alert: Option<string>, reasonInvalid: bool, buttonsDisabled: bool, confirmCaption: string)

  /** A reason is accepted when something other than whitespace is left. */
  predicate Blank(motivo: string)
  {
    Trim(motivo) == ""
  }

  /** An accepted reason is never the empty text that the page's own guard rejects. */
  lemma AcceptedReasonNonEmpty(motivo: string)
    ensures !Blank(motivo) ==> motivo != "" && !AllWhitespace(motivo)
  {
    BlankIff(motivo);
  }

  class AnularCuponModal {
    var motivo: string
    var validated: bool

    constructor ()
      ensures motivo == "" && !validated
    {
      motivo, validated := "", false;
    }

    /** The effect on `show`: hiding the dialog forgets the reason and the
        validation flag; showing it keeps them. */
    method OnShowChange(show: bool)
      modifies this
      ensures !show ==> motivo == "" && !validated
      ensures show ==> motivo == old(motivo) && validated == old(validated)
    {
      if !show {
        motivo, validated := "", false;
      }
    }

    method SetMotivo(value: string)
      modifies this`motivo
      ensures motivo == value
    {
      motivo := value;
    }

    /** `handleSubmit`: a blank reason (the required check or the trim
        check) only turns the validation on; otherwise the reason, untrimmed,
        goes to the page. */
    method Submit() returns (confirmed: Option<string>)
      modifies this`validated
      ensures Blank(motivo) ==> confirmed.None? && validated
      ensures !Blank(motivo) ==> confirmed == Some(motivo) && validated == old(validated)
      ensures confirmed.Some? ==> confirmed.value != ""
    {
      if motivo == "" || Blank(motivo) {
        validated := true;
        confirmed := None;
      } else {
        AcceptedReasonNonEmpty(motivo);
        confirmed := Some(motivo);
      }
    }

    /** The field is flagged once a submission was rejected, while the reason stays blank. */
    function IsInvalid(): (r: bool)
      reads this
      ensures r <==> validated && AllWhitespace(motivo)
    {
      BlankIff(motivo);
      validated && Blank(motivo)
    }

    function View(isAnulando: bool, errorAnulacion: Option<string>): (v: ModalView)
      reads this
      ensures v.alert.Some? <==> Truthy(errorAnulacion)
      ensures v.buttonsDisabled == isAnulando
      ensures v.reasonInvalid == IsInvalid()
    {
      ModalView(if Truthy(errorAnulacion) then errorAnulacion else None,
                IsInvalid(), isAnulando, if isAnulando then "Anulando..." else "Confirmar Anulación")
    }
  }
}
