/**
 * The event form dialog (`showEventFormModal`). Each press of the confirm
 * button runs `preConfirm` on the four field values: any empty field is
 * rejected first, then a date earlier than the current instant; a rejected
 * submission shows its message and keeps the dialog open. The dialog resolves
 * with the first accepted values, or with no value when the user closes it.
 */
module EventForm {
  import opened Js

  /** The four inputs of the form, as strings. */
  datatype FormValues = FormValues(title: string, description: string, location: string, date: string)

  /** One press of the confirm button: the values in the form and the instant `new Date()` at that moment. */
  datatype Submission = Submission(values: FormValues, now: int)

  /** What `preConfirm` returns: the values, or `null` after showing a validation message. */
  datatype Verdict = Accept(values: FormValues) | Reject(message: string)

  const MissingFieldMessage: string := "Todos los campos son obligatorios"
  const PastDateMessage: string := "La fecha debe ser futura"

  predicate AllFilled(v: FormValues) {
    v.title != "" && v.description != "" && v.location != "" && v.date != ""
  }

  /**
   * `new Date(a).getTime() < now.getTime()`: `parseDate` stands for
   * `new Date(...).getTime()`, and a comparison with NaN is false.
   */
  predicate Before(date: JsNumber, now: int) {
    date.Num? && date.n < now
  }

  /** `preConfirm`, given the instant `now` and the date parser. */
  function PreConfirm(v: FormValues, now: int, parseDate: string -> JsNumber): (r: Verdict)
    ensures r == Reject(MissingFieldMessage) <==> !AllFilled(v)
    ensures r == Reject(PastDateMessage) <==> AllFilled(v) && Before(parseDate(v.date), now)
    ensures r.Accept? <==> AllFilled(v) && !Before(parseDate(v.date), now)
    ensures r.Accept? ==> r.values == v
  {
    if v.title == "" || v.description == "" || v.location == "" || v.date == "" then
      Reject(MissingFieldMessage)
    else if parseDate(v.date).Num? && parseDate(v.date).n < now then
      Reject(PastDateMessage)
    else
      Accept(v)
  }

  /** How the dialog ended: the accepted values (or none), and the messages shown on the way. */
  datatype ModalOutcome = ModalOutcome(value: Option<FormValues>, messages: seq<string>)

  /**
   * The dialog driven by a sequence of confirm presses; if none is accepted,
   * the user closed the dialog after the last one.
   */
  function RunFormModal(presses: seq<Submission>, parseDate: string -> JsNumber): (r: ModalOutcome)
    ensures |r.messages| <= |presses|
    ensures forall i :: 0 <= i < |r.messages| ==>
              PreConfirm(presses[i].values, presses[i].now, parseDate) == Reject(r.messages[i])
    ensures r.value.None? ==> |r.messages| == |presses|
    ensures r.value.Some? ==>
              && |r.messages| < |presses|
              && PreConfirm(presses[|r.messages|].values, presses[|r.messages|].now, parseDate) == Accept(r.value.value)
  {
    if presses == [] then ModalOutcome(None, [])
    else
      match PreConfirm(presses[0].values, presses[0].now, parseDate)
      case Accept(v) => ModalOutcome(Some(v), [])
      case Reject(m) =>
        var rest := RunFormModal(presses[1..], parseDate);
        ModalOutcome(rest.value, [m] + rest.messages)
  }

  /** The empty-field check wins over the date check. */
  lemma EmptyFieldCheckedFirst(v: FormValues, now: int, parseDate: string -> JsNumber)
    requires !AllFilled(v) && Before(parseDate(v.date), now)
    ensures PreConfirm(v, now, parseDate) == Reject(MissingFieldMessage)
  {
  }

  /** A date equal to the current instant is accepted; one millisecond earlier is rejected. */
  lemma DateBoundary(v: FormValues, now: int, parseDate: string -> JsNumber)
    requires AllFilled(v)
    ensures parseDate(v.date) == Num(now) ==> PreConfirm(v, now, parseDate) == Accept(v)
    ensures parseDate(v.date) == Num(now - 1) ==> PreConfirm(v, now, parseDate) == Reject(PastDateMessage)
  {
  }

  /** Whatever the dialog resolves with passed `preConfirm` at the moment it was submitted. */
  lemma {:induction false} ModalValueWasAccepted(presses: seq<Submission>, parseDate: string -> JsNumber)
    requires RunFormModal(presses, parseDate).value.Some?
    ensures var v := RunFormModal(presses, parseDate).value.value;
            exists p :: p in presses && p.values == v && AllFilled(v) && !Before(parseDate(v.date), p.now)
  {
    var r := RunFormModal(presses, parseDate);
    var p := presses[|r.messages|];
    assert PreConfirm(p.values, p.now, parseDate) == Accept(r.value.value);
  }

  /** A dialog in which every press is rejected closes without a value. */
  lemma {:induction false} ModalClosedWhenAllRejected(presses: seq<Submission>, parseDate: string -> JsNumber)
    requires forall i :: 0 <= i < |presses| ==> PreConfirm(presses[i].values, presses[i].now, parseDate).Reject?
    ensures RunFormModal(presses, parseDate).value.None?
  {
    if presses != [] {
      assert PreConfirm(presses[0].values, presses[0].now, parseDate).Reject?;
      assert forall i :: 0 <= i < |presses[1..]| ==> presses[1..][i] == presses[i + 1];
      ModalClosedWhenAllRejected(presses[1..], parseDate);
    }
  }
}
