/** What eventHandler does with a classified request: getAll and getByID
    consult the data collaborator, then either write status 500 or hand the
    result to encodeAsJSON, and write 500 again if encoding fails; getByID
    also logs a failed lookup.

    The collaborators are parameters: a Store gives the outcome of
    data.GetAll and of data.GetByID for every id, and the encoder gives the
    outcome json.Encoder.Encode has for a value on this response.  A Recorder
    stands for the response writer `w` and the process log together: it
    records, in order, every call the handler makes to them and to the
    store. */
module Dispatch {
  import opened Routing

  /** http.StatusInternalServerError */
  const InternalServerError: int := 500

  /** A Go `error` value, as far as the handler is concerned. */
  datatype Error = Error(message: string)

  datatype Option<+T> = None | Some(value: T)

  /** The `(value, err)` pair a data lookup returns. */
  datatype Outcome<+T> = Success(value: T) | Failure(err: Error)

  /** What is passed to encodeAsJSON: the list of all events, or one event.
      Events are opaque to the handler, hence the type parameter. */
  datatype Payload<+E> = EventList(events: seq<E>) | SingleEvent(event: E)

  /** The data collaborator as one request sees it. */
  datatype Store<E> = Store(all: Outcome<seq<E>>, byID: int -> Outcome<E>)

  /** One observable action of the handler. */
  datatype Effect<E> =
    | QueriedAll                 // data.GetAll()
    | QueriedByID(id: int)       // data.GetByID(id)
    | Status(code: int)          // w.WriteHeader(code)
    | Body(value: Payload<E>)    // encodeAsJSON(value, w)
    | Logged(err: Error)         // log.Print(err)

  predicate IsQuery<E>(e: Effect<E>) { e.QueriedAll? || e.QueriedByID? }
  predicate IsStatus<E>(e: Effect<E>) { e.Status? }
  predicate IsBody<E>(e: Effect<E>) { e.Body? }
  predicate IsLog<E>(e: Effect<E>) { e.Logged? }

  /** The actions of `t` of one kind, in order. */
  function Filter<E>(t: seq<Effect<E>>, keep: Effect<E> -> bool): (r: seq<Effect<E>>)
    ensures |r| <= |t|
    ensures forall e :: e in r ==> e in t && keep(e)
  {
    if t == [] then []
    else (if keep(t[0]) then [t[0]] else []) + Filter(t[1..], keep)
  }

  lemma {:induction false} FilterAppend<E>(a: seq<Effect<E>>, b: seq<Effect<E>>, keep: Effect<E> -> bool)
    ensures Filter(a + b, keep) == Filter(a, keep) + Filter(b, keep)
  {
    if a != [] {
      assert (a + b)[0] == a[0];
      assert (a + b)[1..] == a[1..] + b;
      assert Filter(a + b, keep) == (if keep(a[0]) then [a[0]] else []) + Filter(a[1..] + b, keep);
      FilterAppend(a[1..], b, keep);
    } else {
      assert a + b == b;
    }
  }

  /** The filter of a trace of at most three actions, spelled out. */
  lemma {:induction false} FilterShort<E>(t: seq<Effect<E>>, keep: Effect<E> -> bool)
    requires |t| <= 3
    ensures Filter(t, keep) ==
      (if |t| > 0 && keep(t[0]) then [t[0]] else []) +
      (if |t| > 1 && keep(t[1]) then [t[1]] else []) +
      (if |t| > 2 && keep(t[2]) then [t[2]] else [])
  {
    if t != [] {
      FilterShort(t[1..], keep);
    }
  }

  /** encodeAsJSON followed by the error check of its caller. */
  function EncodeEffects<E>(value: Payload<E>, encoder: Payload<E> -> Option<Error>): seq<Effect<E>> {
    [Body(value)] + (if encoder(value).Some? then [Status(InternalServerError)] else [])
  }

  function GetAllEffects<E>(store: Store<E>, encoder: Payload<E> -> Option<Error>): seq<Effect<E>> {
    [QueriedAll] +
    match store.all
    case Failure(_) => [Status(InternalServerError)]
    case Success(events) => EncodeEffects(EventList(events), encoder)
  }

  function GetByIDEffects<E>(id: int, store: Store<E>, encoder: Payload<E> -> Option<Error>): seq<Effect<E>> {
    [QueriedByID(id)] +
    match store.byID(id)
    case Failure(err) => [Status(InternalServerError), Logged(err)]
    case Success(event) => EncodeEffects(SingleEvent(event), encoder)
  }

  /** Everything ServeHTTP does for a request with path `path`, in order. */
  function ServeEffects<E>(path: string, store: Store<E>, encoder: Payload<E> -> Option<Error>): seq<Effect<E>> {
    match Classify(path)
    case Collection => GetAllEffects(store, encoder)
    case ByIdentifier(id) => GetByIDEffects(id, store, encoder)
  }

  /** The lookup the request performs, with its result as it would be encoded. */
  function Lookup<E>(path: string, store: Store<E>): Outcome<Payload<E>> {
    match Classify(path)
    case Collection =>
      (match store.all
       case Failure(err) => Failure(err)
       case Success(events) => Success(EventList(events)))
    case ByIdentifier(id) =>
      (match store.byID(id)
       case Failure(err) => Failure(err)
       case Success(event) => Success(SingleEvent(event)))
  }

  /** Every request consults the data collaborator exactly once, first, and
      which operation it calls depends only on the path: data.GetAll for a
      Collection intent, data.GetByID with the parsed id otherwise. */
  lemma DispatchesOnce<E>(path: string, store: Store<E>, encoder: Payload<E> -> Option<Error>)
    ensures var t := ServeEffects(path, store, encoder);
      && |t| > 0
      && Filter(t, IsQuery) == [t[0]]
      && (t[0] == QueriedAll <==> Classify(path) == Collection)
      && (Classify(path).ByIdentifier? ==> t[0] == QueriedByID(Classify(path).id))
  {
    var t := ServeEffects(path, store, encoder);
    FilterAppend([t[0]], t[1..], IsQuery);
    assert [t[0]] + t[1..] == t;
    NoneKept(t[1..], IsQuery);
  }

  /** A filter that no action of `t` passes is empty. */
  lemma {:induction false} NoneKept<E>(t: seq<Effect<E>>, keep: Effect<E> -> bool)
    requires forall i :: 0 <= i < |t| ==> !keep(t[i])
    ensures Filter(t, keep) == []
  {
    if t != [] {
      NoneKept(t[1..], keep);
    }
  }

  /** The statuses, bodies and log entries of a request, in closed form. */
  lemma HandlerFilters<E>(path: string, store: Store<E>, encoder: Payload<E> -> Option<Error>)
    ensures var t := ServeEffects(path, store, encoder);
      var found := Lookup(path, store);
      && |t| <= 3
      && Filter(t, IsStatus) ==
         (if found.Failure? || encoder(found.value).Some? then [Status(InternalServerError)] else [])
      && Filter(t, IsBody) == (if found.Success? then [Body(found.value)] else [])
      && Filter(t, IsLog) ==
         (if Classify(path).ByIdentifier? && found.Failure? then [Logged(found.err)] else [])
  {
    var t := ServeEffects(path, store, encoder);
    FilterShort(t, IsStatus);
    FilterShort(t, IsBody);
    FilterShort(t, IsLog);
  }

  /** A failed lookup answers with exactly one WriteHeader(500) and encodes
      nothing. */
  lemma LookupFailureIs500<E>(path: string, store: Store<E>, encoder: Payload<E> -> Option<Error>)
    requires Lookup(path, store).Failure?
    ensures Filter(ServeEffects(path, store, encoder), IsStatus) == [Status(InternalServerError)]
    ensures Filter(ServeEffects(path, store, encoder), IsBody) == []
  {
    HandlerFilters(path, store, encoder);
  }

  /** Only a failed lookup by id is logged, once, with the collaborator's
      error; a failed data.GetAll and every encoding failure log nothing. */
  lemma OnlyByIDFailureLogs<E>(path: string, store: Store<E>, encoder: Payload<E> -> Option<Error>)
    ensures Filter(ServeEffects(path, store, encoder), IsLog) ==
      if Classify(path).ByIdentifier? && Lookup(path, store).Failure?
      then [Logged(Lookup(path, store).err)]
      else []
  {
    HandlerFilters(path, store, encoder);
  }

  /** After a successful lookup the value found is encoded unchanged, and
      WriteHeader(500) is called exactly when encoding fails; otherwise no
      status is written at all (the implicit 200). */
  lemma EncoderDecidesStatus<E>(path: string, store: Store<E>, encoder: Payload<E> -> Option<Error>)
    requires Lookup(path, store).Success?
    ensures Filter(ServeEffects(path, store, encoder), IsBody) == [Body(Lookup(path, store).value)]
    ensures Filter(ServeEffects(path, store, encoder), IsStatus) ==
      if encoder(Lookup(path, store).value).Some? then [Status(InternalServerError)] else []
  {
    HandlerFilters(path, store, encoder);
  }

  /** The handler never writes more than one status, the only status it
      writes is 500, and nothing is encoded after a status was written. */
  lemma StatusIsFinal<E>(path: string, store: Store<E>, encoder: Payload<E> -> Option<Error>)
    ensures var t := ServeEffects(path, store, encoder);
      && |Filter(t, IsStatus)| <= 1
      && (forall e :: e in t && e.Status? ==> e.code == InternalServerError)
      && (forall i, j :: 0 <= i < j < |t| && t[i].Status? ==> !t[j].Body?)
  {
    var t := ServeEffects(path, store, encoder);
    HandlerFilters(path, store, encoder);
    assert IsQuery(t[0]);
    assert forall k :: 2 <= k < |t| ==> !t[k].Body?;
  }

  /** The response writer `w` and the log of one request, seen through the
      calls the handler makes on them (and on the data collaborator). */
  class Recorder<E> {
    var trace: seq<Effect<E>>

    constructor ()
      ensures trace == []
    {
      trace := [];
    }

    method WriteHeader(code: int)
      modifies this
      ensures trace == old(trace) + [Status(code)]
    {
      trace := trace + [Status(code)];
    }

    method Print(err: Error)
      modifies this
      ensures trace == old(trace) + [Logged(err)]
    {
      trace := trace + [Logged(err)];
    }

    method GetAllFrom(store: Store<E>) returns (events: Outcome<seq<E>>)
      modifies this
      ensures trace == old(trace) + [QueriedAll]
      ensures events == store.all
    {
      trace := trace + [QueriedAll];
      events := store.all;
    }

    method GetByIDFrom(store: Store<E>, id: int) returns (event: Outcome<E>)
      modifies this
      ensures trace == old(trace) + [QueriedByID(id)]
      ensures event == store.byID(id)
    {
      trace := trace + [QueriedByID(id)];
      event := store.byID(id);
    }

    /** encodeAsJSON: hands `value` to a JSON encoder on `w` and reports the
        encoder's error, if any; the call is recorded, not the bytes written. */
    method EncodeAsJSON(value: Payload<E>, encoder: Payload<E> -> Option<Error>) returns (err: Option<Error>)
      modifies this
      ensures trace == old(trace) + [Body(value)]
      ensures err == encoder(value)
    {
      trace := trace + [Body(value)];
      err := encoder(value);
    }

    method GetAll(store: Store<E>, encoder: Payload<E> -> Option<Error>)
      modifies this
      ensures trace == old(trace) + GetAllEffects(store, encoder)
    {
      var events := GetAllFrom(store);
      if events.Failure? {
        WriteHeader(InternalServerError);
        return;
      }
      var err := EncodeAsJSON(EventList(events.value), encoder);
      if err.Some? {
        WriteHeader(InternalServerError);
        return;
      }
    }

    method GetByID(id: int, store: Store<E>, encoder: Payload<E> -> Option<Error>)
      modifies this
      ensures trace == old(trace) + GetByIDEffects(id, store, encoder)
    {
      var event := GetByIDFrom(store, id);
      if event.Failure? {
        WriteHeader(InternalServerError);
        Print(event.err);
        return;
      }
      var err := EncodeAsJSON(SingleEvent(event.value), encoder);
      if err.Some? {
        WriteHeader(InternalServerError);
        return;
      }
    }

    method ServeHTTP(path: string, store: Store<E>, encoder: Payload<E> -> Option<Error>)
      modifies this
      ensures trace == old(trace) + ServeEffects(path, store, encoder)
    {
      var intent := Classify(path);
      if intent.Collection? {
        GetAll(store, encoder);
      } else {
        GetByID(intent.id, store, encoder);
      }
    }
  }
}
