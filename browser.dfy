/**
 * The browser as the pages see it: `localStorage`, a string-to-string map
 * that the pages update in place, and the ordered trace of everything else a
 * page does that can be observed from outside: service calls, notices and
 * dialogs, validation messages and navigation. Storage writes are recorded
 * in the trace too, so that the order of writes and navigation can be stated.
 */
module Browser {
  import opened Js
  import opened Api

  /** The icon of a notice: `'success'` or `'error'`. */
  datatype Icon = SuccessIcon | ErrorIcon

  datatype Effect =
    | SetItem(key: string, value: string)                    // localStorage.setItem
    | RemoveItem(key: string)                                // localStorage.removeItem
    | Navigate(path: string)                                 // navigate(path)
    | Notice(icon: Icon, title: string, text: Option<string>) // Swal.fire notice
    | ValidationMessage(message: string)                     // Swal.showValidationMessage
    | ShowForm(title: string, initial: Option<EventFields>)  // the event form dialog
    | AskConfirmation                                        // the delete confirmation dialog
    | CallLogin(email: string, password: string)
    | CallRegister(name: string, email: string, password: string)
    | CallGetEvents
    | CallCreateEvent(data: EventData)
    | CallUpdateEvent(id: int, fields: EventFields)
    | CallDeleteEvent(id: int)
  {
    predicate WritesStorage() {
      SetItem? || RemoveItem?
    }

    predicate CallsService() {
      CallLogin? || CallRegister? || CallGetEvents? || CallCreateEvent? || CallUpdateEvent? || CallDeleteEvent?
    }
  }

  /** What one effect does to the storage map. */
  function Apply(m: map<string, string>, e: Effect): map<string, string> {
    match e
    case SetItem(k, v) => m[k := v]
    case RemoveItem(k) => m - {k}
    case _ => m
  }

  /** The storage reached from `m` by performing the storage writes of `t` in order. */
  function Replay(m: map<string, string>, t: seq<Effect>): map<string, string>
    decreases |t|
  {
    if t == [] then m else Replay(Apply(m, t[0]), t[1..])
  }

  lemma {:induction false} ReplayAppend(m: map<string, string>, t: seq<Effect>, u: seq<Effect>)
    ensures Replay(m, t + u) == Replay(Replay(m, t), u)
    decreases |t|
  {
    if t != [] {
      assert (t + u)[1..] == t[1..] + u;
      ReplayAppend(Apply(m, t[0]), t[1..], u);
    } else {
      assert t + u == u;
    }
  }

  /** A trace without storage writes leaves storage as it was. */
  lemma {:induction false} ReplayReadOnly(m: map<string, string>, t: seq<Effect>)
    requires forall i :: 0 <= i < |t| ==> !t[i].WritesStorage()
    ensures Replay(m, t) == m
    decreases |t|
  {
    if t != [] {
      ReplayReadOnly(m, t[1..]);
    }
  }

  /** The service calls of a trace, in order. */
  function ServiceCalls(t: seq<Effect>): seq<Effect> {
    if t == [] then []
    else (if t[0].CallsService() then [t[0]] else []) + ServiceCalls(t[1..])
  }

  lemma {:induction false} ServiceCallsAppend(t: seq<Effect>, u: seq<Effect>)
    ensures ServiceCalls(t + u) == ServiceCalls(t) + ServiceCalls(u)
  {
    if t != [] {
      assert (t + u)[1..] == t[1..] + u;
      ServiceCallsAppend(t[1..], u);
    } else {
      assert t + u == u;
    }
  }

  lemma ServiceCallsOne(e: Effect)
    ensures ServiceCalls([e]) == if e.CallsService() then [e] else []
  {
    assert [e][1..] == [];
  }

  /** A trace without service calls has an empty `ServiceCalls`. */
  lemma {:induction false} ServiceCallsNone(t: seq<Effect>)
    requires forall i :: 0 <= i < |t| ==> !t[i].CallsService()
    ensures ServiceCalls(t) == []
  {
    if t != [] {
      ServiceCallsNone(t[1..]);
    }
  }

  class Browser {
    /** The storage contents when the page was loaded. */
    ghost const initial: map<string, string>
    /** `localStorage` */
    var storage: map<string, string>
    /** Everything observable done so far, oldest first. */
    var trace: seq<Effect>

    /** Storage changes only through the writes recorded in the trace. */
    ghost predicate Valid()
      reads this
    {
      storage == Replay(initial, trace)
    }

    constructor (contents: map<string, string>)
      ensures Valid() && initial == contents && storage == contents && trace == []
    {
      initial := contents;
      storage := contents;
      trace := [];
    }

    /** `localStorage.getItem(key)` */
    function GetItem(key: string): (r: Option<string>)
      reads this
      ensures r.Some? <==> key in storage
      ensures r.Some? ==> r.value == storage[key]
    {
      if key in storage then Some(storage[key]) else None
    }

    /** `localStorage.setItem(key, value)` */
    method SetItem(key: string, value: string)
      requires Valid()
      modifies this
      ensures Valid()
      ensures storage == old(storage)[key := value]
      ensures trace == old(trace) + [Effect.SetItem(key, value)]
    {
      ReplayAppend(initial, trace, [Effect.SetItem(key, value)]);
      storage := storage[key := value];
      trace := trace + [Effect.SetItem(key, value)];
    }

    /** `localStorage.removeItem(key)` */
    method RemoveItem(key: string)
      requires Valid()
      modifies this
      ensures Valid()
      ensures storage == old(storage) - {key}
      ensures trace == old(trace) + [Effect.RemoveItem(key)]
    {
      ReplayAppend(initial, trace, [Effect.RemoveItem(key)]);
      storage := storage - {key};
      trace := trace + [Effect.RemoveItem(key)];
    }

    /** Performs effects that do not touch storage: calls, notices, dialogs, navigation. */
    method Emit(effects: seq<Effect>)
      requires Valid()
      requires forall i :: 0 <= i < |effects| ==> !effects[i].WritesStorage()
      modifies this
      ensures Valid()
      ensures storage == old(storage)
      ensures trace == old(trace) + effects
    {
      ReplayAppend(initial, trace, effects);
      ReplayReadOnly(storage, effects);
      trace := trace + effects;
    }
  }
}
