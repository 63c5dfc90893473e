/**
 The "anachronisync" optimistic-concurrency decorator (index.js): a factory that
 resolves a model's existing `sync(method, model, options)` and returns a `sync`
 that
   - replaces `options.success` and `options.error` with wrappers,
   - adds an `if-unmodified-since` request header (section 3.4 of RFC 7232) to
     `update` and `patch` requests of a model that already holds `_lastModified`,
   - on success records the `last-modified` response header (section 2.2 of
     RFC 7232) and the server's body on the model and triggers `sync:last-modified`,
   - on a 412 Precondition Failed response (section 4.2 of RFC 7232) triggers
     `sync:invalid-last-modified` with the server's new version and body.

 Everything the decorator does through its collaborators lands, in order, in one
 `Log`: the events triggered on models, the calls of the caller's own callbacks
 and the call of the base sync.
 */
module Anachronisync {
  import opened Js

  const LastModifiedHeader := "last-modified"
  const ContentTypeHeader := "content-type"
  const IfUnmodifiedSince := "if-unmodified-since"
  const PreconditionFailed := 412
  // The message the factory throws when `base` has no sync to wrap; its middle
  // phrase names what is missing.
  const MissingSyncMessage := "Anachronisync requires an " + "existing sync" + " implementation to wrap."

  /** The response object handed to the callbacks: its status, its headers by
      lower-case name (what `getResponseHeader` answers) and its body text. */
  datatype Xhr = Xhr(status: int, responseHeaders: map<string, string>, responseText: string)

  /** `xhr.getResponseHeader(name)`: the header's value, or null when absent. */
  function GetResponseHeader(xhr: Xhr, name: string): (r: Option<string>)
    ensures r.None? <==> name !in xhr.responseHeaders
    ensures r.Some? ==> r.value in xhr.responseHeaders.Values && xhr.responseHeaders[name] == r.value
  {
    if name in xhr.responseHeaders then Some(xhr.responseHeaders[name]) else None
  }

  /** The `last-modified` header when it is truthy, i.e. present and not empty. */
  function NewLastModified(xhr: Xhr): (r: Option<string>)
    ensures r.Some? <==> GetResponseHeader(xhr, LastModifiedHeader).Some? &&
                         Truthy(Str(GetResponseHeader(xhr, LastModifiedHeader).value))
    ensures r.Some? ==> r == GetResponseHeader(xhr, LastModifiedHeader) && Truthy(Str(r.value))
  {
    match GetResponseHeader(xhr, LastModifiedHeader)
    case Some(s) => if s != "" then Some(s) else None
    case None => None
  }

  /** The model instance whose `sync` is decorated; only the two fields the
      decorator reads and writes are modelled. */
  class SyncModel {
    var lastModified: Value   // `_lastModified`
    var serverState: Value    // `_serverState`

    constructor ()
      ensures lastModified == Undefined && serverState == Undefined
    {
      lastModified := Undefined;
      serverState := Undefined;
    }
  }

  /** Events triggered on a model, with their positional arguments. */
  datatype Event =
    | LastModified(model: SyncModel, lastModified: string)
    | InvalidLastModified(model: SyncModel, serverLastModified: Option<string>, data: Value)
  {
    function Name(): string {
      match this
      case LastModified(_, _) => "sync:last-modified"
      case InvalidLastModified(_, _, _) => "sync:invalid-last-modified"
    }
  }

  /** What sits in `options.success`: the caller's own value, or the decorator's
      wrapper around whatever was there before. */
  datatype SuccessCallback =
    | SuccessHandler(handler: Value)
    | SuccessWrapper(model: SyncModel, inner: SuccessCallback)

  /** What sits in `options.error`. */
  datatype ErrorCallback =
    | ErrorHandler(handler: Value)
    | ErrorWrapper(model: SyncModel, inner: ErrorCallback)

  /** `if (success)`: a wrapper is a function, hence truthy. */
  predicate SuccessTruthy(cb: SuccessCallback) {
    cb.SuccessWrapper? || Truthy(cb.handler)
  }

  /** `typeof error === 'function'`. */
  predicate ErrorIsFunction(cb: ErrorCallback) {
    cb.ErrorWrapper? || cb.handler.Function?
  }

  /** The options object passed to `sync` and on to the base sync. */
  class Options {
    var headers: Option<map<string, Value>>   // None: absent or falsy
    var success: SuccessCallback
    var error: ErrorCallback

    /** `{}` */
    constructor Empty()
      ensures headers == None && success == SuccessHandler(Undefined) && error == ErrorHandler(Undefined)
    {
      headers := None;
      success := SuccessHandler(Undefined);
      error := ErrorHandler(Undefined);
    }

    /** An options object written by the caller. */
    constructor (headers: Option<map<string, Value>>, success: Value, error: Value)
      ensures this.headers == headers && this.success == SuccessHandler(success) && this.error == ErrorHandler(error)
    {
      this.headers := headers;
      this.success := SuccessHandler(success);
      this.error := ErrorHandler(error);
    }
  }

  /** One observable step: an event triggered on a model, a call of one of the
      caller's functions, or the call of the base sync. */
  datatype Entry =
    | Trigger(event: Event)
    | SuccessCall(fn: nat, data: Value, status: Value, xhr: Xhr)
    | ErrorCall(fn: nat, xhr: Xhr, status: Value, message: Value)
    | BaseSyncCall(fn: nat, verb: string, model: SyncModel, options: Options)

  /** Everything observable, in the order it happened. */
  class Log {
    var entries: seq<Entry>

    constructor ()
      ensures entries == []
    {
      entries := [];
    }
  }

  // ---------------------------------------------------------------------
  // Construction

  /** The `prototype.sync` that construction prefers: present only when both
      `base.prototype` and its `sync` are truthy. */
  function PrototypeSync(base: Value): (r: Value)
    ensures Truthy(r) <==> Truthy(Prop(base, "prototype")) && Truthy(Prop(Prop(base, "prototype"), "sync"))
    ensures Truthy(r) ==> r == Prop(Prop(base, "prototype"), "sync")
  {
    var proto := Prop(base, "prototype");
    if Truthy(proto) then Prop(proto, "sync") else Undefined
  }

  /** `base_sync` as the factory resolves it, or what the factory throws. */
  function ResolveBaseSync(base: Value): (r: Result<Value>)
    ensures r.Ok? ==> Truthy(r.value)
    ensures (r.Err? && r.error.TypeError?) <==> base.Undefined? || base.Null?
    ensures r == Err(Error(MissingSyncMessage)) <==>
              !(base.Undefined? || base.Null?) && !Truthy(PrototypeSync(base)) && !Truthy(Prop(base, "sync"))
    ensures Truthy(PrototypeSync(base)) ==> r == Ok(PrototypeSync(base))
    ensures !(base.Undefined? || base.Null?) && !Truthy(PrototypeSync(base)) && Truthy(Prop(base, "sync")) ==>
              r == Ok(Prop(base, "sync"))
  {
    match GetProperty(base, "prototype")
    case Err(e) => Err(e)
    case Ok(proto) =>
      var protoSync := if Truthy(proto) then Prop(proto, "sync") else Undefined;
      if Truthy(protoSync) then Ok(protoSync)
      else
        var own := Prop(base, "sync");
        if Truthy(own) then Ok(own) else Err(Error(MissingSyncMessage))
  }

  /** The exported factory: the decorator around `base`'s sync, or the error it throws. */
  method Mixin(base: Value) returns (r: Result<Decorator>)
    ensures ResolveBaseSync(base).Err? ==> r == Err(ResolveBaseSync(base).error)
    ensures ResolveBaseSync(base).Ok? ==>
              r.Ok? && fresh(r.value) && r.value.baseSync == ResolveBaseSync(base).value
  {
    var resolved := ResolveBaseSync(base);
    match resolved
    case Err(e) =>
      r := Err(e);
    case Ok(f) =>
      var d := new Decorator(f);
      r := Ok(d);
  }

  // ---------------------------------------------------------------------
  // Options decoration

  /** The verbs whose requests carry the precondition header. */
  predicate IsMutating(verb: string) {
    verb == "update" || verb == "patch"
  }

  /** The request headers after `sync` has decorated them. */
  function DecorateHeaders(verb: string, lastModified: Value, headers: Option<map<string, Value>>)
    : (r: Option<map<string, Value>>)
    ensures IsMutating(verb) && Truthy(lastModified) ==>
              r.Some? && IfUnmodifiedSince in r.value && r.value[IfUnmodifiedSince] == lastModified
    ensures IsMutating(verb) && Truthy(lastModified) ==>
              r.value.Keys == (if headers.Some? then headers.value.Keys else {}) + {IfUnmodifiedSince}
    ensures IsMutating(verb) && Truthy(lastModified) && headers.Some? ==>
              forall k :: k in headers.value && k != IfUnmodifiedSince ==> r.value[k] == headers.value[k]
    ensures !(IsMutating(verb) && Truthy(lastModified)) ==> r == headers
  {
    if IsMutating(verb) && Truthy(lastModified) then
      var h := if headers.Some? then headers.value else map[];
      Some(h[IfUnmodifiedSince := lastModified])
    else headers
  }

  /** `setupOptions`: puts the error and success wrappers in place. */
  method SetupOptions(model: SyncModel, options: Options)
    modifies options
    ensures options.error == ErrorWrapper(model, old(options.error))
    ensures options.success == SuccessWrapper(model, old(options.success))
    ensures options.headers == old(options.headers)
  {
    var error := options.error;
    options.error := ErrorWrapper(model, error);
    var success := options.success;
    options.success := SuccessWrapper(model, success);
  }

  /** The object the factory returns. */
  class Decorator {
    const baseSync: Value

    constructor (baseSync: Value)
      requires Truthy(baseSync)
      ensures this.baseSync == baseSync
    {
      this.baseSync := baseSync;
    }

    /** The decorated `sync(method, model, options)`. `answer` is how the call
        of the base sync completes: what it returns or what it throws; the
        options object the base sync receives is `opts`. */
    method Sync(verb: string, model: SyncModel, options: Options?, log: Log, answer: Completion)
      returns (opts: Options, result: Completion)
      modifies options, log
      ensures options != null ==> opts == options
      ensures options == null ==> fresh(opts)
      ensures opts.success == SuccessWrapper(model, if options == null then SuccessHandler(Undefined) else old(options.success))
      ensures opts.error == ErrorWrapper(model, if options == null then ErrorHandler(Undefined) else old(options.error))
      ensures opts.headers == DecorateHeaders(verb, model.lastModified, if options == null then None else old(options.headers))
      ensures baseSync.Function? ==>
                result == answer &&
                log.entries == old(log.entries) + [BaseSyncCall(baseSync.id, verb, model, opts)]
      ensures !baseSync.Function? ==>
                result.Threw? && result.error.TypeError? && log.entries == old(log.entries)
    {
      if options == null {
        opts := new Options.Empty();
      } else {
        opts := options;
      }
      SetupOptions(model, opts);
      if IsMutating(verb) && Truthy(model.lastModified) {
        if opts.headers.None? {
          opts.headers := Some(map[]);
        }
        opts.headers := Some(opts.headers.value[IfUnmodifiedSince := model.lastModified]);
      }
      if baseSync.Function? {
        log.entries := log.entries + [BaseSyncCall(baseSync.id, verb, model, opts)];
        result := answer;
      } else {
        result := Threw(TypeError("base_sync.call is not a function"));
      }
    }
  }

  // ---------------------------------------------------------------------
  // The success wrapper

  /** A run of a callback: how it completes and what it adds to the log. */
  datatype Run = Run(completion: Completion, trace: seq<Entry>)

  /** The models whose wrappers are stacked in a success callback. */
  function SuccessModels(cb: SuccessCallback): set<SyncModel> {
    match cb
    case SuccessHandler(_) => {}
    case SuccessWrapper(model, inner) => {model} + SuccessModels(inner)
  }

  /** How many decorator wrappers are stacked in `cb`. */
  function SuccessDepth(cb: SuccessCallback): nat {
    match cb
    case SuccessHandler(_) => 0
    case SuccessWrapper(_, inner) => 1 + SuccessDepth(inner)
  }

  /** The model of the `i`-th wrapper, counted from the outermost. */
  function SuccessModelAt(cb: SuccessCallback, i: nat): SyncModel
    requires i < SuccessDepth(cb)
  {
    match cb
    case SuccessWrapper(model, inner) => if i == 0 then model else SuccessModelAt(inner, i - 1)
  }

  /** The caller's own value at the bottom of the stack. */
  function SuccessInnermost(cb: SuccessCallback): Value {
    match cb
    case SuccessHandler(f) => f
    case SuccessWrapper(_, inner) => SuccessInnermost(inner)
  }

  /** Calling `cb(data, status, xhr)`: each wrapper records the version and
      triggers its event before it forwards to what it wraps. A wrapper returns
      undefined; a step of at most one entry per wrapper is added, and one more
      for the caller's own function. */
  function SuccessRun(cb: SuccessCallback, data: Value, status: Value, xhr: Xhr): (r: Run)
    ensures r.completion.Returned? ==> r.completion.value == Undefined
    ensures r.completion.Threw? ==> r.completion.error.TypeError?
    ensures |r.trace| <= SuccessDepth(cb) + 1
  {
    match cb
    case SuccessHandler(f) =>
      if f.Function? then Run(Returned(Undefined), [SuccessCall(f.id, data, status, xhr)])
      else Run(Threw(TypeError("success is not a function")), [])
    case SuccessWrapper(model, inner) =>
      var events := match NewLastModified(xhr)
        case Some(s) => [Trigger(LastModified(model, s))]
        case None => [];
      var rest := if SuccessTruthy(inner) then SuccessRun(inner, data, status, xhr)
                  else Run(Returned(Undefined), []);
      Run(rest.completion, events + rest.trace)
  }

  /** The success callback as the base sync calls it. */
  method FireSuccess(cb: SuccessCallback, data: Value, status: Value, xhr: Xhr, log: Log)
    returns (c: Completion)
    modifies log, SuccessModels(cb)
    ensures c == SuccessRun(cb, data, status, xhr).completion
    ensures log.entries == old(log.entries) + SuccessRun(cb, data, status, xhr).trace
    ensures forall m :: m in SuccessModels(cb) && old(allocated(m)) ==>
              m.lastModified == (if NewLastModified(xhr).Some? then Str(NewLastModified(xhr).value) else old(m.lastModified))
    ensures forall m :: m in SuccessModels(cb) && old(allocated(m)) ==>
              m.serverState == (if NewLastModified(xhr).Some? && data.Object? then data else old(m.serverState))
    decreases cb
  {
    match cb
    case SuccessHandler(f) =>
      if f.Function? {
        log.entries := log.entries + [SuccessCall(f.id, data, status, xhr)];
        c := Returned(Undefined);
      } else {
        c := Threw(TypeError("success is not a function"));
      }
    case SuccessWrapper(model, inner) =>
      var lastModified := GetResponseHeader(xhr, LastModifiedHeader);
      if lastModified.Some? && lastModified.value != "" {
        model.lastModified := Str(lastModified.value);
        if data.Object? {
          model.serverState := data;
        }
        log.entries := log.entries + [Trigger(LastModified(model, lastModified.value))];
      }
      if SuccessTruthy(inner) {
        c := FireSuccess(inner, data, status, xhr, log);
      } else {
        c := Returned(Undefined);
      }
  }

  // ---------------------------------------------------------------------
  // The error wrapper and handleOutOfSync

  /** The content-type names JSON. */
  ghost predicate MentionsJson(mime: string) {
    exists k :: OccursAt(mime, "json", k)
  }

  /** The server state `handleOutOfSync` reports: the parsed body when the
      content-type names JSON and the body parses to a truthy value, `{}` otherwise. */
  function StaleData(mime: string, responseText: string, parse: string -> Option<Value>): (data: Value)
    ensures Truthy(data)
    ensures MentionsJson(mime) && parse(responseText).Some? && Truthy(parse(responseText).value) ==>
              data == parse(responseText).value
    ensures !(MentionsJson(mime) && parse(responseText).Some? && Truthy(parse(responseText).value)) ==>
              data == Object(map[])
  {
    var parsed := if IndexOf(mime, "json") != -1 then parse(responseText) else None;
    if parsed.Some? && Truthy(parsed.value) then parsed.value else Object(map[])
  }

  /** The event `handleOutOfSync` triggers, or the TypeError it throws when the
      response has no content-type (`null.indexOf`). */
  function StaleWrite(model: SyncModel, xhr: Xhr, parse: string -> Option<Value>): (r: Result<Event>)
    ensures r.Err? <==> ContentTypeHeader !in xhr.responseHeaders
    ensures r.Err? ==> r.error.TypeError?
    ensures r.Ok? ==> r.value == InvalidLastModified(model, GetResponseHeader(xhr, LastModifiedHeader),
                                                    StaleData(xhr.responseHeaders[ContentTypeHeader], xhr.responseText, parse))
  {
    match GetResponseHeader(xhr, ContentTypeHeader)
    case None => Err(TypeError("Cannot read properties of null (reading 'indexOf')"))
    case Some(mime) =>
      Ok(InvalidLastModified(model, GetResponseHeader(xhr, LastModifiedHeader), StaleData(mime, xhr.responseText, parse)))
  }

  /** `handleOutOfSync(model, xhr)`; `parse` is `JSON.parse`, None where it throws. */
  method HandleOutOfSync(model: SyncModel, xhr: Xhr, parse: string -> Option<Value>, log: Log)
    returns (c: Completion)
    modifies log
    ensures StaleWrite(model, xhr, parse).Ok? ==>
              c == Returned(Undefined) && log.entries == old(log.entries) + [Trigger(StaleWrite(model, xhr, parse).value)]
    ensures StaleWrite(model, xhr, parse).Err? ==>
              c == Threw(StaleWrite(model, xhr, parse).error) && log.entries == old(log.entries)
  {
    var lastModified := GetResponseHeader(xhr, LastModifiedHeader);
    var mime := GetResponseHeader(xhr, ContentTypeHeader);
    if mime.None? {
      c := Threw(TypeError("Cannot read properties of null (reading 'indexOf')"));
      return;
    }
    var data := Undefined;
    if IndexOf(mime.value, "json") != -1 {
      var parsed := parse(xhr.responseText);
      if parsed.Some? {
        data := parsed.value;
      }
    }
    if !Truthy(data) {
      data := Object(map[]);
    }
    log.entries := log.entries + [Trigger(InvalidLastModified(model, lastModified, data))];
    c := Returned(Undefined);
  }

  function ErrorDepth(cb: ErrorCallback): nat {
    match cb
    case ErrorHandler(_) => 0
    case ErrorWrapper(_, inner) => 1 + ErrorDepth(inner)
  }

  function ErrorModelAt(cb: ErrorCallback, i: nat): SyncModel
    requires i < ErrorDepth(cb)
  {
    match cb
    case ErrorWrapper(model, inner) => if i == 0 then model else ErrorModelAt(inner, i - 1)
  }

  function ErrorInnermost(cb: ErrorCallback): Value {
    match cb
    case ErrorHandler(f) => f
    case ErrorWrapper(_, inner) => ErrorInnermost(inner)
  }

  /** What an error wrapper does before it forwards: on 412 it runs
      `handleOutOfSync`, on any other status nothing. */
  function OutOfSyncStep(model: SyncModel, xhr: Xhr, parse: string -> Option<Value>): (r: Run)
    ensures r.completion.Threw? <==> xhr.status == PreconditionFailed && ContentTypeHeader !in xhr.responseHeaders
    ensures r.completion.Threw? ==> r.completion.error.TypeError? && r.trace == []
    ensures r.completion.Returned? ==> r.completion.value == Undefined
    ensures xhr.status != PreconditionFailed ==> r.trace == []
    ensures xhr.status == PreconditionFailed && StaleWrite(model, xhr, parse).Ok? ==>
              r.trace == [Trigger(StaleWrite(model, xhr, parse).value)]
  {
    if xhr.status != PreconditionFailed then Run(Returned(Undefined), [])
    else
      match StaleWrite(model, xhr, parse)
      case Ok(e) => Run(Returned(Undefined), [Trigger(e)])
      case Err(e) => Run(Threw(e), [])
  }

  /** Calling `cb(xhr, status, message)`: on 412 each wrapper reports the stale
      write before it forwards to what it wraps. */
  function ErrorRun(cb: ErrorCallback, xhr: Xhr, status: Value, message: Value, parse: string -> Option<Value>)
    : (r: Run)
    ensures r.completion.Returned? ==> r.completion.value == Undefined
    ensures r.completion.Threw? ==> r.completion.error.TypeError?
    ensures |r.trace| <= ErrorDepth(cb) + 1
  {
    match cb
    case ErrorHandler(f) =>
      if f.Function? then Run(Returned(Undefined), [ErrorCall(f.id, xhr, status, message)])
      else Run(Threw(TypeError("error is not a function")), [])
    case ErrorWrapper(model, inner) =>
      var step := OutOfSyncStep(model, xhr, parse);
      if step.completion.Threw? then step
      else
        var rest := if ErrorIsFunction(inner) then ErrorRun(inner, xhr, status, message, parse)
                    else Run(Returned(Undefined), []);
        Run(rest.completion, step.trace + rest.trace)
  }

  /** `if (xhr.status === 412) handleOutOfSync(model, xhr)`. */
  method OnErrorStatus(model: SyncModel, xhr: Xhr, parse: string -> Option<Value>, log: Log)
    returns (c: Completion)
    modifies log
    ensures c == OutOfSyncStep(model, xhr, parse).completion
    ensures log.entries == old(log.entries) + OutOfSyncStep(model, xhr, parse).trace
  {
    if xhr.status == PreconditionFailed {
      c := HandleOutOfSync(model, xhr, parse, log);
    } else {
      c := Returned(Undefined);
    }
  }

  /** The error callback as the base sync calls it; it never touches a model's fields. */
  method FireError(cb: ErrorCallback, xhr: Xhr, status: Value, message: Value,
                   parse: string -> Option<Value>, log: Log)
    returns (c: Completion)
    modifies log
    ensures c == ErrorRun(cb, xhr, status, message, parse).completion
    ensures log.entries == old(log.entries) + ErrorRun(cb, xhr, status, message, parse).trace
    decreases cb, 1
  {
    match cb
    case ErrorHandler(f) =>
      if f.Function? {
        log.entries := log.entries + [ErrorCall(f.id, xhr, status, message)];
        c := Returned(Undefined);
      } else {
        c := Threw(TypeError("error is not a function"));
      }
    case ErrorWrapper(model, inner) =>
      ghost var step := OutOfSyncStep(model, xhr, parse);
      ghost var before := log.entries;
      c := OnErrorStatus(model, xhr, parse, log);
      if c.Returned? {
        ghost var mid := log.entries;
        c := ForwardError(inner, xhr, status, message, parse, log);
        // The log is the entries before, the 412 step, then what forwarding added.
        ghost var rest := if ErrorIsFunction(inner) then ErrorRun(inner, xhr, status, message, parse)
                          else Run(Returned(Undefined), []);
        assert log.entries == before + step.trace + rest.trace;
        assert ErrorRun(cb, xhr, status, message, parse) == Run(rest.completion, step.trace + rest.trace);
      }
  }

  /** `if (typeof error === 'function') error(xhr, status, message)`. */
  method ForwardError(inner: ErrorCallback, xhr: Xhr, status: Value, message: Value,
                      parse: string -> Option<Value>, log: Log)
    returns (c: Completion)
    modifies log
    ensures ErrorIsFunction(inner) ==> c == ErrorRun(inner, xhr, status, message, parse).completion
    ensures ErrorIsFunction(inner) ==> log.entries == old(log.entries) + ErrorRun(inner, xhr, status, message, parse).trace
    ensures !ErrorIsFunction(inner) ==> c == Returned(Undefined) && log.entries == old(log.entries)
    decreases inner, 2
  {
    if ErrorIsFunction(inner) {
      c := FireError(inner, xhr, status, message, parse, log);
    } else {
      c := Returned(Undefined);
    }
  }
}
