/**
 * The event page. Its state is the list of the current user's events and the
 * sort selection; its handlers fetch the events and keep only the current
 * user's, change the sort, and run the create, edit and delete flows (dialog,
 * service call, notice, refetch) and logout.
 *
 * Each handler is a method on the page; what it does is stated by a flow
 * function giving the effects it performs, in order, and the resulting event
 * list. The outcomes of dialogs and service calls are parameters.
 */
module EventList {
  import opened Js
  import opened Api
  import opened Browser
  import opened Session
  import opened SortOption
  import opened EventSort
  import opened EventForm

  const FetchErrorTitle: string := "Error al obtener eventos"
  const FetchErrorText: string := "No se pudieron cargar los eventos"
  const CreateFormTitle: string := "Crear Evento"
  const EditFormTitle: string := "Editar Evento"
  const NoUserText: string := "No se encontró el usuario logueado"
  const CreatedTitle: string := "Evento creado"
  const CreateErrorTitle: string := "Error al crear evento"
  const CreateErrorText: string := "No se pudo crear el evento"
  const UpdatedTitle: string := "Evento actualizado"
  const UpdateErrorTitle: string := "Error al actualizar evento"
  const UpdateErrorText: string := "Revisa el formato de la fecha"
  const DeletedTitle: string := "Eliminado"
  const DeletedText: string := "El evento fue eliminado"
  const DeleteErrorTitle: string := "Error al eliminar"
  const DeleteErrorText: string := "No se pudo eliminar el evento"

  // ---------------------------------------------------------------------
  // The owner filter
  // ---------------------------------------------------------------------

  /** `data.filter(evt => evt.userId === currentUserId)` */
  function OwnedBy(items: seq<EventItem>, uid: JsNumber): (r: seq<EventItem>)
    ensures |r| <= |items|
    ensures forall e :: e in r <==> e in items && StrictEquals(Num(e.userId), uid)
  {
    if items == [] then []
    else
      assert items == [items[0]] + items[1..];
      (if StrictEquals(Num(items[0].userId), uid) then [items[0]] else []) + OwnedBy(items[1..], uid)
  }

  /** The filter keeps the fetched order: filtering a concatenation concatenates the filtered parts. */
  lemma {:induction false} OwnedByAppend(a: seq<EventItem>, b: seq<EventItem>, uid: JsNumber)
    ensures OwnedBy(a + b, uid) == OwnedBy(a, uid) + OwnedBy(b, uid)
  {
    if a == [] {
      assert a + b == b;
    } else {
      assert (a + b)[1..] == a[1..] + b;
      OwnedByAppend(a[1..], b, uid);
    }
  }

  /** When every fetched event is the user's, all of them are kept, in fetched order. */
  lemma {:induction false} OwnedByKeepsOwn(items: seq<EventItem>, uid: JsNumber)
    requires forall e :: e in items ==> StrictEquals(Num(e.userId), uid)
    ensures OwnedBy(items, uid) == items
  {
    if items != [] {
      OwnedByKeepsOwn(items[1..], uid);
    }
  }

  /** When the stored user id is not a number, no event is kept. */
  lemma OwnedByNaN(items: seq<EventItem>)
    ensures OwnedBy(items, NaN) == []
  {
    if OwnedBy(items, NaN) != [] {
      assert OwnedBy(items, NaN)[0] in OwnedBy(items, NaN);
    }
  }

  // ---------------------------------------------------------------------
  // The flows as functions of the outcomes they await
  // ---------------------------------------------------------------------

  /** A page step: the effects performed, in order, and the event list afterwards. */
  datatype Step = Step(effects: seq<Effect>, events: seq<EventItem>)

  /** `Swal.showValidationMessage` for each rejected press of the form's confirm button. */
  function ValidationMessages(messages: seq<string>): (r: seq<Effect>)
    ensures |r| == |messages|
    ensures forall i :: 0 <= i < |r| ==> r[i] == ValidationMessage(messages[i])
  {
    if messages == [] then [] else [ValidationMessage(messages[0])] + ValidationMessages(messages[1..])
  }

  /** `fetchEvents`: the `getEvents` call, then the error notice if it failed. */
  function FetchEffects(result: FetchResult): seq<Effect> {
    [CallGetEvents] + if result.FetchRejected? then [Notice(ErrorIcon, FetchErrorTitle, Some(FetchErrorText))] else []
  }

  /** The event list after `fetchEvents`: the user's fetched events, or the old list if the fetch failed. */
  function EventsAfterFetch(events: seq<EventItem>, result: FetchResult, uid: JsNumber): seq<EventItem> {
    if result.Fetched? then OwnedBy(result.items, uid) else events
  }

  /** After a create, update or delete call settles: a success notice and a refetch, or an error notice. */
  function Settle(events: seq<EventItem>, uid: JsNumber, result: CallResult, success: Effect, failure: Effect, refetch: FetchResult): Step {
    if result.Resolved? then Step([success] + FetchEffects(refetch), EventsAfterFetch(events, refetch, uid))
    else Step([failure], events)
  }

  /** The form dialog opened, then the messages of the rejected presses. */
  function FormEffects(title: string, initial: Option<EventFields>, modal: ModalOutcome): seq<Effect> {
    [ShowForm(title, initial)] + ValidationMessages(modal.messages)
  }

  /** The fields sent to the service: the form's strings and the instant of its date. */
  function FieldsOf(v: FormValues, date: int): EventFields {
    EventFields(v.title, v.description, v.location, date)
  }

  /** `handleCreateEvent` after the dialog returned `values`: the user id check, the date conversion and the call. */
  function SubmitCreate(events: seq<EventItem>, uid: JsNumber, storage: map<string, string>,
                        values: FormValues, parseDate: string -> JsNumber,
                        created: CallResult, refetch: FetchResult): Step
  {
    if !Truthy(StoredUserId(storage)) then
      Step([Notice(ErrorIcon, "Error", Some(NoUserText))], events)
    else if parseDate(values.date).NaN? then
      // `new Date(date).toISOString()` throws inside the `try`
      Step([Notice(ErrorIcon, CreateErrorTitle, Some(CreateErrorText))], events)
    else
      var data := EventData(FieldsOf(values, parseDate(values.date).n), StoredUserId(storage).n);
      var settled := Settle(events, uid, created, Notice(SuccessIcon, CreatedTitle, None),
                            Notice(ErrorIcon, CreateErrorTitle, Some(CreateErrorText)), refetch);
      Step([CallCreateEvent(data)] + settled.effects, settled.events)
  }

  /** `handleCreateEvent` */
  function CreateFlow(events: seq<EventItem>, uid: JsNumber, storage: map<string, string>,
                      presses: seq<Submission>, parseDate: string -> JsNumber,
                      created: CallResult, refetch: FetchResult): Step
  {
    var modal := RunFormModal(presses, parseDate);
    var opening := FormEffects(CreateFormTitle, None, modal);
    if modal.value.None? then Step(opening, events)
    else
      var submitted := SubmitCreate(events, uid, storage, modal.value.value, parseDate, created, refetch);
      Step(opening + submitted.effects, submitted.events)
  }

  /** `handleEditEvent(evt)` after the dialog returned `values`: the date conversion and the call. */
  function SubmitEdit(events: seq<EventItem>, uid: JsNumber, evt: EventItem,
                      values: FormValues, parseDate: string -> JsNumber,
                      updated: CallResult, refetch: FetchResult): Step
  {
    if parseDate(values.date).NaN? then
      Step([Notice(ErrorIcon, UpdateErrorTitle, Some(UpdateErrorText))], events)
    else
      var fields := FieldsOf(values, parseDate(values.date).n);
      var settled := Settle(events, uid, updated, Notice(SuccessIcon, UpdatedTitle, None),
                            Notice(ErrorIcon, UpdateErrorTitle, Some(UpdateErrorText)), refetch);
      Step([CallUpdateEvent(evt.id, fields)] + settled.effects, settled.events)
  }

  /** The form of `handleEditEvent(evt)` starts from the event's own fields. */
  function EditInitial(evt: EventItem): EventFields {
    EventFields(evt.title, evt.description, evt.location, evt.date)
  }

  /** `handleEditEvent(evt)` */
  function EditFlow(events: seq<EventItem>, uid: JsNumber, evt: EventItem,
                    presses: seq<Submission>, parseDate: string -> JsNumber,
                    updated: CallResult, refetch: FetchResult): Step
  {
    var modal := RunFormModal(presses, parseDate);
    var opening := FormEffects(EditFormTitle, Some(EditInitial(evt)), modal);
    if modal.value.None? then Step(opening, events)
    else
      var submitted := SubmitEdit(events, uid, evt, modal.value.value, parseDate, updated, refetch);
      Step(opening + submitted.effects, submitted.events)
  }

  /** `handleDeleteEvent(id)` */
  function DeleteFlow(events: seq<EventItem>, uid: JsNumber, id: int, confirmed: bool,
                      deleted: CallResult, refetch: FetchResult): Step
  {
    if !confirmed then Step([AskConfirmation], events)
    else
      var settled := Settle(events, uid, deleted, Notice(SuccessIcon, DeletedTitle, Some(DeletedText)),
                            Notice(ErrorIcon, DeleteErrorTitle, Some(DeleteErrorText)), refetch);
      Step([AskConfirmation, CallDeleteEvent(id)] + settled.effects, settled.events)
  }

  /** `handleLogout`: the two removals, then navigation to `/`. */
  function LogoutEffects(): seq<Effect> {
    LogoutWrites() + [Navigate("/")]
  }

  // ---------------------------------------------------------------------
  // The page
  // ---------------------------------------------------------------------

  class EventListPage {
    const browser: Browser
    /** `Number(localStorage.getItem('userId'))` as the page read it. */
    const currentUserId: JsNumber
    /** The greeting name. */
    const userName: string
    var events: seq<EventItem>
    var sortBy: SortKey
    var sortOrder: SortOrder

    /** The list only ever holds events of the current user. */
    ghost predicate Valid()
      reads this, browser
    {
      && browser.Valid()
      && forall e :: e in events ==> StrictEquals(Num(e.userId), currentUserId)
    }

    constructor (browser: Browser)
      requires browser.Valid()
      ensures Valid()
      ensures this.browser == browser
      ensures currentUserId == StoredUserId(browser.storage) && userName == UserName(browser.storage)
      ensures events == [] && SortSpec(sortBy, sortOrder) == DefaultSpec
    {
      this.browser := browser;
      currentUserId := NumberOf(browser.GetItem(UserIdKey));
      userName := if TruthyText(browser.GetItem(NameKey)) then browser.GetItem(NameKey).value else "Usuario";
      events := [];
      sortBy := ByDate;
      sortOrder := Asc;
    }

    /** The select's `value`: always one of its options, and the one that reads back as the current state. */
    function SelectValue(): (r: string)
      reads this
      ensures r in SortOptionValues
      ensures Decode(r) == Some(SortSpec(sortBy, sortOrder))
    {
      OptionsAreEncodings();
      DecodeEncode(SortSpec(sortBy, sortOrder));
      Encode(SortSpec(sortBy, sortOrder))
    }

    /** `sortedEvents`, for the given `localeCompare`: a sorted copy, the page's own list left as it is. */
    function SortedEvents(localeCompare: (string, string) -> int): (r: seq<EventItem>)
      reads this
      ensures multiset(r) == multiset(events)
    {
      SortEvents(events, SortSpec(sortBy, sortOrder), localeCompare)
    }

    /** `fetchEvents`, with `result` the outcome of `getEvents()`. */
    method FetchEvents(result: FetchResult)
      requires Valid()
      modifies this, browser
      ensures Valid()
      ensures browser.storage == old(browser.storage)
      ensures browser.trace == old(browser.trace) + FetchEffects(result)
      ensures events == EventsAfterFetch(old(events), result, currentUserId)
      ensures sortBy == old(sortBy) && sortOrder == old(sortOrder)
    {
      browser.Emit([CallGetEvents]);
      match result {
        case Fetched(items) =>
          events := OwnedBy(items, currentUserId);
        case FetchRejected =>
          browser.Emit([Notice(ErrorIcon, FetchErrorTitle, Some(FetchErrorText))]);
      }
    }

    /** `handleSortChange(value)`, called by the select with one of its option values. */
    method HandleSortChange(value: string)
      requires value in SortOptionValues
      modifies this
      ensures Decode(value) == Some(SortSpec(sortBy, sortOrder))
      ensures SelectValue() == value
      ensures events == old(events)
    {
      OptionRoundTrip(value);
      var spec := Decode(value).value;
      sortBy := spec.key;
      sortOrder := spec.order;
    }

    /**
     * What follows a create, update or delete call: `success` and a refetch
     * when it resolved, `failure` when it was rejected.
     */
    method SettleCall(result: CallResult, success: Effect, failure: Effect, refetch: FetchResult)
      requires Valid()
      requires success.Notice? && failure.Notice?
      modifies this, browser
      ensures Valid()
      ensures browser.storage == old(browser.storage)
      ensures var step := Settle(old(events), currentUserId, result, success, failure, refetch);
              browser.trace == old(browser.trace) + step.effects && events == step.events
      ensures sortBy == old(sortBy) && sortOrder == old(sortOrder)
    {
      if result.Resolved? {
        browser.Emit([success]);
        FetchEvents(refetch);
      } else {
        browser.Emit([failure]);
      }
    }

    /** The part of `handleCreateEvent` after the dialog returned `formValues`. */
    method SubmitCreateEvent(formValues: FormValues, parseDate: string -> JsNumber,
                             created: CallResult, refetch: FetchResult)
      requires Valid()
      modifies this, browser
      ensures Valid()
      ensures browser.storage == old(browser.storage)
      ensures var step := SubmitCreate(old(events), currentUserId, old(browser.storage), formValues, parseDate, created, refetch);
              browser.trace == old(browser.trace) + step.effects && events == step.events
      ensures sortBy == old(sortBy) && sortOrder == old(sortOrder)
    {
      var userId := NumberOf(browser.GetItem(UserIdKey));
      if !Truthy(userId) {
        browser.Emit([Notice(ErrorIcon, "Error", Some(NoUserText))]);
        return;
      }
      var date := parseDate(formValues.date);
      if date.NaN? {
        browser.Emit([Notice(ErrorIcon, CreateErrorTitle, Some(CreateErrorText))]);
        return;
      }
      browser.Emit([CallCreateEvent(EventData(FieldsOf(formValues, date.n), userId.n))]);
      SettleCall(created, Notice(SuccessIcon, CreatedTitle, None), Notice(ErrorIcon, CreateErrorTitle, Some(CreateErrorText)), refetch);
    }

    /**
     * `handleCreateEvent`: `presses` are the confirm presses in the form,
     * `created` the outcome of `createEvent` and `refetch` that of the
     * `getEvents` that follows a successful create.
     */
    method HandleCreateEvent(presses: seq<Submission>, parseDate: string -> JsNumber,
                             created: CallResult, refetch: FetchResult)
      requires Valid()
      modifies this, browser
      ensures Valid()
      ensures browser.storage == old(browser.storage)
      ensures var step := CreateFlow(old(events), currentUserId, old(browser.storage), presses, parseDate, created, refetch);
              browser.trace == old(browser.trace) + step.effects && events == step.events
      ensures sortBy == old(sortBy) && sortOrder == old(sortOrder)
    {
      var modal := RunFormModal(presses, parseDate);
      browser.Emit(FormEffects(CreateFormTitle, None, modal));
      if modal.value.Some? {
        SubmitCreateEvent(modal.value.value, parseDate, created, refetch);
      }
    }

    /** `handleDeleteEvent(id)`: `confirmed` is the user's answer, `deleted` the outcome of `deleteEvent`. */
    method HandleDeleteEvent(id: int, confirmed: bool, deleted: CallResult, refetch: FetchResult)
      requires Valid()
      modifies this, browser
      ensures Valid()
      ensures browser.storage == old(browser.storage)
      ensures var step := DeleteFlow(old(events), currentUserId, id, confirmed, deleted, refetch);
              browser.trace == old(browser.trace) + step.effects && events == step.events
      ensures sortBy == old(sortBy) && sortOrder == old(sortOrder)
    {
      browser.Emit([AskConfirmation]);
      if confirmed {
        browser.Emit([CallDeleteEvent(id)]);
        SettleCall(deleted, Notice(SuccessIcon, DeletedTitle, Some(DeletedText)),
                   Notice(ErrorIcon, DeleteErrorTitle, Some(DeleteErrorText)), refetch);
      }
    }

    /** The part of `handleEditEvent(evt)` after the dialog returned `formValues`. */
    method SubmitEditEvent(evt: EventItem, formValues: FormValues, parseDate: string -> JsNumber,
                           updated: CallResult, refetch: FetchResult)
      requires Valid()
      modifies this, browser
      ensures Valid()
      ensures browser.storage == old(browser.storage)
      ensures var step := SubmitEdit(old(events), currentUserId, evt, formValues, parseDate, updated, refetch);
              browser.trace == old(browser.trace) + step.effects && events == step.events
      ensures sortBy == old(sortBy) && sortOrder == old(sortOrder)
    {
      var date := parseDate(formValues.date);
      if date.NaN? {
        browser.Emit([Notice(ErrorIcon, UpdateErrorTitle, Some(UpdateErrorText))]);
        return;
      }
      browser.Emit([CallUpdateEvent(evt.id, FieldsOf(formValues, date.n))]);
      SettleCall(updated, Notice(SuccessIcon, UpdatedTitle, None), Notice(ErrorIcon, UpdateErrorTitle, Some(UpdateErrorText)), refetch);
    }

    /** `handleEditEvent(evt)`: the form opens pre-filled with `evt`; `updated` is the outcome of `updateEvent`. */
    method HandleEditEvent(evt: EventItem, presses: seq<Submission>, parseDate: string -> JsNumber,
                           updated: CallResult, refetch: FetchResult)
      requires Valid()
      modifies this, browser
      ensures Valid()
      ensures browser.storage == old(browser.storage)
      ensures var step := EditFlow(old(events), currentUserId, evt, presses, parseDate, updated, refetch);
              browser.trace == old(browser.trace) + step.effects && events == step.events
      ensures sortBy == old(sortBy) && sortOrder == old(sortOrder)
    {
      var modal := RunFormModal(presses, parseDate);
      browser.Emit(FormEffects(EditFormTitle, Some(EditInitial(evt)), modal));
      if modal.value.Some? {
        SubmitEditEvent(evt, modal.value.value, parseDate, updated, refetch);
      }
    }

    /** `handleLogout` */
    method HandleLogout()
      requires Valid()
      modifies browser
      ensures Valid()
      ensures browser.storage == StoreLogout(old(browser.storage))
      ensures browser.trace == old(browser.trace) + LogoutEffects()
    {
      browser.RemoveItem(TokenKey);
      browser.RemoveItem(UserIdKey);
      browser.Emit([Navigate("/")]);
    }
  }

  /** The page shows its events sorted by its current key and direction. */
  lemma PageEventsSorted(p: EventListPage, localeCompare: (string, string) -> int)
    requires Consistent(SortSpec(p.sortBy, p.sortOrder), localeCompare)
    ensures SortedBy(p.SortedEvents(localeCompare), SortSpec(p.sortBy, p.sortOrder), localeCompare)
    ensures multiset(p.SortedEvents(localeCompare)) == multiset(p.events)
  {
    SortEventsSorted(p.events, SortSpec(p.sortBy, p.sortOrder), localeCompare);
  }
}
