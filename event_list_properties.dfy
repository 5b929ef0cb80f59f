/**
 * What the event page's flows guarantee: which service calls each flow makes
 * and with what, when the event list changes, and that none of them writes
 * storage except logout, which removes exactly `token` and `userId`.
 */
module EventListProperties {
  import opened Js
  import opened Api
  import opened Browser
  import opened Session
  import opened EventForm
  import opened EventList

  /** A failed fetch keeps the list and shows the error notice; a successful one shows only the user's events. */
  lemma FetchOutcome(events: seq<EventItem>, result: FetchResult, uid: JsNumber)
    ensures result.FetchRejected? ==>
              && EventsAfterFetch(events, result, uid) == events
              && FetchEffects(result) == [CallGetEvents, Notice(ErrorIcon, FetchErrorTitle, Some(FetchErrorText))]
    ensures result.Fetched? ==>
              && FetchEffects(result) == [CallGetEvents]
              && forall e :: e in EventsAfterFetch(events, result, uid) <==>
                   e in result.items && StrictEquals(Num(e.userId), uid)
  {
  }

  /** No effect of `t` writes storage. */
  predicate ReadOnly(t: seq<Effect>) {
    forall i :: 0 <= i < |t| ==> !t[i].WritesStorage()
  }

  lemma ReadOnlyAppend(t: seq<Effect>, u: seq<Effect>)
    requires ReadOnly(t) && ReadOnly(u)
    ensures ReadOnly(t + u)
  {
    forall i | 0 <= i < |t + u|
      ensures !(t + u)[i].WritesStorage()
    {
      if i >= |t| { assert (t + u)[i] == u[i - |t|]; }
    }
  }

  /** The form dialog neither calls a service nor writes storage. */
  lemma FormIsLocal(title: string, initial: Option<EventFields>, modal: ModalOutcome)
    ensures ServiceCalls(FormEffects(title, initial, modal)) == []
    ensures ReadOnly(FormEffects(title, initial, modal))
  {
    ServiceCallsNone(FormEffects(title, initial, modal));
  }

  /** `fetchEvents` calls `getEvents` and nothing else, and writes no storage. */
  lemma FetchIsLocal(result: FetchResult)
    ensures ServiceCalls(FetchEffects(result)) == [CallGetEvents]
    ensures ReadOnly(FetchEffects(result))
  {
    var tail: seq<Effect> := if result.FetchRejected? then [Notice(ErrorIcon, FetchErrorTitle, Some(FetchErrorText))] else [];
    assert FetchEffects(result) == [CallGetEvents] + tail;
    ServiceCallsAppend([CallGetEvents], tail);
    ServiceCallsOne(CallGetEvents);
    ServiceCallsNone(tail);
  }

  /** After a call settles, the only further call is the refetch after a success; storage is not written. */
  lemma SettleFacts(events: seq<EventItem>, uid: JsNumber, result: CallResult,
                    success: Effect, failure: Effect, refetch: FetchResult)
    requires success.Notice? && failure.Notice?
    ensures var t := Settle(events, uid, result, success, failure, refetch).effects;
            && ServiceCalls(t) == (if result.Resolved? then [CallGetEvents] else [])
            && ReadOnly(t)
  {
    if result.Resolved? {
      FetchIsLocal(refetch);
      ServiceCallsAppend([success], FetchEffects(refetch));
      ServiceCallsOne(success);
      ReadOnlyAppend([success], FetchEffects(refetch));
    } else {
      ServiceCallsOne(failure);
    }
  }

  /** The dialog followed by an error notice: no call, no storage write. */
  lemma ThenNotice(opening: seq<Effect>, notice: Effect)
    requires ServiceCalls(opening) == [] && ReadOnly(opening) && notice.Notice?
    ensures ServiceCalls(opening + [notice]) == [] && ReadOnly(opening + [notice])
  {
    ServiceCallsAppend(opening, [notice]);
    ReadOnlyAppend(opening, [notice]);
    ServiceCallsOne(notice);
  }

  /** The dialog, one service call and its settling: that call, then the refetch after a success. */
  lemma ThenCallAndSettle(opening: seq<Effect>, call: Effect, events: seq<EventItem>, uid: JsNumber,
                          result: CallResult, success: Effect, failure: Effect, refetch: FetchResult)
    requires ServiceCalls(opening) == [] && ReadOnly(opening)
    requires call.CallsService() && !call.WritesStorage() && success.Notice? && failure.Notice?
    ensures var t := opening + ([call] + Settle(events, uid, result, success, failure, refetch).effects);
            && ServiceCalls(t) == [call] + (if result.Resolved? then [CallGetEvents] else [])
            && ReadOnly(t)
  {
    var rest := Settle(events, uid, result, success, failure, refetch).effects;
    SettleFacts(events, uid, result, success, failure, refetch);
    ServiceCallsOne(call);
    ServiceCallsAppend([call], rest);
    ServiceCallsAppend(opening, [call] + rest);
    ReadOnlyAppend([call], rest);
    ReadOnlyAppend(opening, [call] + rest);
  }

  /**
   * The create flow calls `createEvent` at most once, and only when the dialog
   * returned values, the stored user id is truthy and the date parses; the
   * body carries that user id. `getEvents` follows only a successful create.
   * Storage is never written.
   */
  lemma CreateServiceCalls(events: seq<EventItem>, uid: JsNumber, storage: map<string, string>,
                           presses: seq<Submission>, parseDate: string -> JsNumber,
                           created: CallResult, refetch: FetchResult)
    ensures var modal := RunFormModal(presses, parseDate);
            var t := CreateFlow(events, uid, storage, presses, parseDate, created, refetch).effects;
            && ReadOnly(t)
            && if modal.value.None? || !Truthy(StoredUserId(storage)) || parseDate(modal.value.value.date).NaN? then
                 ServiceCalls(t) == []
               else
                 ServiceCalls(t) ==
                 [CallCreateEvent(EventData(FieldsOf(modal.value.value, parseDate(modal.value.value.date).n),
                                            StoredUserId(storage).n))] +
                 (if created.Resolved? then [CallGetEvents] else [])
  {
    var modal := RunFormModal(presses, parseDate);
    var opening := FormEffects(CreateFormTitle, None, modal);
    FormIsLocal(CreateFormTitle, None, modal);
    if modal.value.None? {
    } else if !Truthy(StoredUserId(storage)) {
      ThenNotice(opening, Notice(ErrorIcon, "Error", Some(NoUserText)));
    } else if parseDate(modal.value.value.date).NaN? {
      ThenNotice(opening, Notice(ErrorIcon, CreateErrorTitle, Some(CreateErrorText)));
    } else {
      var data := EventData(FieldsOf(modal.value.value, parseDate(modal.value.value.date).n), StoredUserId(storage).n);
      ThenCallAndSettle(opening, CallCreateEvent(data), events, uid, created, Notice(SuccessIcon, CreatedTitle, None),
                        Notice(ErrorIcon, CreateErrorTitle, Some(CreateErrorText)), refetch);
    }
  }

  /**
   * Whatever `createEvent` is sent was validated: a non-zero owner id read
   * from storage, and fields that passed `preConfirm` at a submission whose
   * instant was not after the event's date.
   */
  lemma CreateSendsValidatedEvent(events: seq<EventItem>, uid: JsNumber, storage: map<string, string>,
                                  presses: seq<Submission>, parseDate: string -> JsNumber,
                                  created: CallResult, refetch: FetchResult, data: EventData)
    requires CallCreateEvent(data) in
             ServiceCalls(CreateFlow(events, uid, storage, presses, parseDate, created, refetch).effects)
    ensures StoredUserId(storage) == Num(data.userId) && data.userId != 0
    ensures exists p :: p in presses && AllFilled(p.values) && parseDate(p.values.date) == Num(data.fields.date)
              && data.fields == FieldsOf(p.values, data.fields.date) && p.now <= data.fields.date
  {
    CreateServiceCalls(events, uid, storage, presses, parseDate, created, refetch);
    var modal := RunFormModal(presses, parseDate);
    ModalValueWasAccepted(presses, parseDate);
    var p :| p in presses && p.values == modal.value.value && AllFilled(p.values) && !Before(parseDate(p.values.date), p.now);
    assert data.fields == FieldsOf(p.values, data.fields.date);
  }

  /** Without a truthy stored user id the create flow calls no service and reports the missing user. */
  lemma CreateNeedsUser(events: seq<EventItem>, uid: JsNumber, storage: map<string, string>,
                        presses: seq<Submission>, parseDate: string -> JsNumber,
                        created: CallResult, refetch: FetchResult)
    requires !Truthy(StoredUserId(storage))
    requires RunFormModal(presses, parseDate).value.Some?
    ensures var step := CreateFlow(events, uid, storage, presses, parseDate, created, refetch);
            && ServiceCalls(step.effects) == []
            && step.events == events
            && step.effects[|step.effects| - 1] == Notice(ErrorIcon, "Error", Some(NoUserText))
  {
    CreateServiceCalls(events, uid, storage, presses, parseDate, created, refetch);
  }

  /** A dialog closed without accepted values ends the create flow: no call, no notice, no change. */
  lemma CreateCancelled(events: seq<EventItem>, uid: JsNumber, storage: map<string, string>,
                        presses: seq<Submission>, parseDate: string -> JsNumber,
                        created: CallResult, refetch: FetchResult)
    requires RunFormModal(presses, parseDate).value.None?
    ensures var step := CreateFlow(events, uid, storage, presses, parseDate, created, refetch);
            && step.effects == FormEffects(CreateFormTitle, None, RunFormModal(presses, parseDate))
            && ServiceCalls(step.effects) == []
            && step.events == events
  {
    FormIsLocal(CreateFormTitle, None, RunFormModal(presses, parseDate));
  }

  /**
   * The edit flow calls `updateEvent` at most once, always with the id of the
   * event being edited, and only when the dialog returned values whose date
   * parses; it never checks the stored user id. Storage is never written.
   */
  lemma EditServiceCalls(events: seq<EventItem>, uid: JsNumber, evt: EventItem,
                         presses: seq<Submission>, parseDate: string -> JsNumber,
                         updated: CallResult, refetch: FetchResult)
    ensures var modal := RunFormModal(presses, parseDate);
            var t := EditFlow(events, uid, evt, presses, parseDate, updated, refetch).effects;
            && ReadOnly(t)
            && if modal.value.None? || parseDate(modal.value.value.date).NaN? then
                 ServiceCalls(t) == []
               else
                 ServiceCalls(t) ==
                 [CallUpdateEvent(evt.id, FieldsOf(modal.value.value, parseDate(modal.value.value.date).n))] +
                 (if updated.Resolved? then [CallGetEvents] else [])
  {
    var modal := RunFormModal(presses, parseDate);
    var initial := Some(EditInitial(evt));
    var opening := FormEffects(EditFormTitle, initial, modal);
    FormIsLocal(EditFormTitle, initial, modal);
    if modal.value.None? {
    } else if parseDate(modal.value.value.date).NaN? {
      ThenNotice(opening, Notice(ErrorIcon, UpdateErrorTitle, Some(UpdateErrorText)));
    } else {
      var call := CallUpdateEvent(evt.id, FieldsOf(modal.value.value, parseDate(modal.value.value.date).n));
      ThenCallAndSettle(opening, call, events, uid, updated, Notice(SuccessIcon, UpdatedTitle, None),
                        Notice(ErrorIcon, UpdateErrorTitle, Some(UpdateErrorText)), refetch);
    }
  }

  /**
   * `deleteEvent(id)` is called exactly when the user confirms, once, with
   * that id; `getEvents` follows only a successful delete. Without
   * confirmation nothing else happens and the list is unchanged. Storage is
   * never written.
   */
  lemma DeleteOnlyWhenConfirmed(events: seq<EventItem>, uid: JsNumber, id: int, confirmed: bool,
                                deleted: CallResult, refetch: FetchResult)
    ensures var step := DeleteFlow(events, uid, id, confirmed, deleted, refetch);
            && ReadOnly(step.effects)
            && ServiceCalls(step.effects) ==
               (if confirmed then [CallDeleteEvent(id)] + (if deleted.Resolved? then [CallGetEvents] else []) else [])
            && (!confirmed ==> step.effects == [AskConfirmation] && step.events == events)
  {
    if confirmed {
      var success := Notice(SuccessIcon, DeletedTitle, Some(DeletedText));
      var failure := Notice(ErrorIcon, DeleteErrorTitle, Some(DeleteErrorText));
      var rest := Settle(events, uid, deleted, success, failure, refetch).effects;
      var asked := [AskConfirmation, CallDeleteEvent(id)];
      assert asked == [AskConfirmation] + [CallDeleteEvent(id)];
      ServiceCallsAppend([AskConfirmation], [CallDeleteEvent(id)]);
      ServiceCallsOne(AskConfirmation);
      ServiceCallsOne(CallDeleteEvent(id));
      SettleFacts(events, uid, deleted, success, failure, refetch);
      ServiceCallsAppend(asked, rest);
      ReadOnlyAppend(asked, rest);
    } else {
      ServiceCallsOne(AskConfirmation);
    }
  }

  /** The list changes only through a successful refetch after a successful call, to the user's fetched events. */
  lemma EventsChangeOnlyOnRefetch(events: seq<EventItem>, uid: JsNumber, id: int, confirmed: bool,
                                  deleted: CallResult, refetch: FetchResult)
    ensures var after := DeleteFlow(events, uid, id, confirmed, deleted, refetch).events;
            after == (if confirmed && deleted.Resolved? && refetch.Fetched? then OwnedBy(refetch.items, uid) else events)
  {
  }

  /** The create, edit and delete flows never touch storage. */
  lemma FlowsKeepStorage(m: map<string, string>, events: seq<EventItem>, uid: JsNumber, evt: EventItem,
                         presses: seq<Submission>, parseDate: string -> JsNumber,
                         result: CallResult, confirmed: bool, refetch: FetchResult)
    ensures Replay(m, CreateFlow(events, uid, m, presses, parseDate, result, refetch).effects) == m
    ensures Replay(m, EditFlow(events, uid, evt, presses, parseDate, result, refetch).effects) == m
    ensures Replay(m, DeleteFlow(events, uid, evt.id, confirmed, result, refetch).effects) == m
  {
    CreateServiceCalls(events, uid, m, presses, parseDate, result, refetch);
    ReplayReadOnly(m, CreateFlow(events, uid, m, presses, parseDate, result, refetch).effects);
    EditServiceCalls(events, uid, evt, presses, parseDate, result, refetch);
    ReplayReadOnly(m, EditFlow(events, uid, evt, presses, parseDate, result, refetch).effects);
    DeleteOnlyWhenConfirmed(events, uid, evt.id, confirmed, result, refetch);
    ReplayReadOnly(m, DeleteFlow(events, uid, evt.id, confirmed, result, refetch).effects);
  }

  /**
   * Logout removes exactly `token` and `userId`, in that order, before
   * navigating to `/`; after it the route guard redirects and the stored
   * user id reads as 0.
   */
  lemma LogoutRemovesSession(m: map<string, string>)
    ensures var t := LogoutEffects();
            && Replay(m, t) == StoreLogout(m)
            && Replay(m, t).Keys == m.Keys - {TokenKey, UserIdKey}
            && t[|t| - 1] == Navigate("/")
            && ServiceCalls(t) == []
  {
    var t := LogoutEffects();
    ReplayAppend(m, LogoutWrites(), [Navigate("/")]);
    ReplayLogoutWrites(m);
    ServiceCallsNone(t);
  }
}
