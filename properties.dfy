/**
 What the decorator promises, proved about the specification functions of
 module Anachronisync: how many events a success or error callback triggers,
 with which arguments, and that the caller's own callback runs at most once,
 last, with the arguments the transport passed.
 */
module AnachronisyncProperties {
  import opened Js
  import opened Anachronisync

  // ---------------------------------------------------------------------
  // The success path

  /** Every wrapper triggers `sync:last-modified` with the new header exactly
      when the header is truthy, outermost wrapper first, each for its own
      model, and nothing else is triggered. */
  lemma {:induction false} SuccessEventsFollowHeader(cb: SuccessCallback, data: Value, status: Value, xhr: Xhr)
    ensures var r := SuccessRun(cb, data, status, xhr);
            var n := if NewLastModified(xhr).Some? then SuccessDepth(cb) else 0;
            && n <= |r.trace|
            && (forall i :: 0 <= i < n ==>
                  && r.trace[i].Trigger?
                  && r.trace[i].event.LastModified?
                  && r.trace[i].event.Name() == "sync:last-modified"
                  && r.trace[i].event.lastModified == NewLastModified(xhr).value
                  && r.trace[i].event.model == SuccessModelAt(cb, i))
            && (forall i :: n <= i < |r.trace| ==> !r.trace[i].Trigger?)
    decreases cb
  {
    match cb
    case SuccessHandler(_) =>
    case SuccessWrapper(model, inner) =>
      if SuccessTruthy(inner) {
        SuccessEventsFollowHeader(inner, data, status, xhr);
      }
  }

  /** The caller's own success function is called once, as the last step, with
      the identical `(data, status, xhr)` — exactly when it is a function;
      the run throws only when it is a truthy value that is not a function
      (or, called bare, any value that is not a function). */
  lemma {:induction false} SuccessForwardsOnce(cb: SuccessCallback, data: Value, status: Value, xhr: Xhr)
    ensures var r := SuccessRun(cb, data, status, xhr);
            var n := if NewLastModified(xhr).Some? then SuccessDepth(cb) else 0;
            var f := SuccessInnermost(cb);
            && |r.trace| == n + (if f.Function? then 1 else 0)
            && (f.Function? ==> r.trace[n] == SuccessCall(f.id, data, status, xhr))
            && (r.completion.Threw? <==> !f.Function? && (SuccessDepth(cb) == 0 || Truthy(f)))
            && (r.completion.Returned? ==> r.completion.value == Undefined)
    decreases cb
  {
    match cb
    case SuccessHandler(_) =>
    case SuccessWrapper(model, inner) =>
      if SuccessTruthy(inner) {
        SuccessForwardsOnce(inner, data, status, xhr);
      }
  }

  /** What `sync` installs around a caller's `success` (index.js:22-32): on a
      truthy `last-modified` one `sync:last-modified(model, lastModified)`, then
      the caller's function with identical arguments. */
  lemma DecoratedSuccess(model: SyncModel, f: Value, data: Value, status: Value, xhr: Xhr)
    ensures var r := SuccessRun(SuccessWrapper(model, SuccessHandler(f)), data, status, xhr);
            var events := match NewLastModified(xhr)
              case Some(s) => [Trigger(LastModified(model, s))]
              case None => [];
            && r.trace == events + (if f.Function? then [SuccessCall(f.id, data, status, xhr)] else [])
            && (r.completion.Threw? <==> Truthy(f) && !f.Function?)
  {
  }

  // ---------------------------------------------------------------------
  // The error path

  /** On a status other than 412 nothing is triggered; on 412 every wrapper,
      outermost first and each for its own model, triggers
      `sync:invalid-last-modified` with the response's `last-modified`
      (possibly absent) and the reported server state — unless the response has
      no content-type, in which case the outermost wrapper throws before anything
      happens. */
  lemma {:induction false} ErrorEventsFollowStatus(cb: ErrorCallback, xhr: Xhr, status: Value, message: Value,
                                                  parse: string -> Option<Value>)
    ensures var r := ErrorRun(cb, xhr, status, message, parse);
            var stale := xhr.status == PreconditionFailed && ErrorDepth(cb) > 0;
            var n := if stale then ErrorDepth(cb) else 0;
            && (stale && ContentTypeHeader !in xhr.responseHeaders ==>
                  r.trace == [] && r.completion.Threw? && r.completion.error.TypeError?)
            && (!(stale && ContentTypeHeader !in xhr.responseHeaders) ==>
                  && n <= |r.trace|
                  && (forall i :: 0 <= i < n ==>
                        && r.trace[i].Trigger?
                        && r.trace[i].event.InvalidLastModified?
                        && r.trace[i].event.Name() == "sync:invalid-last-modified"
                        && r.trace[i].event.model == ErrorModelAt(cb, i)
                        && r.trace[i].event.serverLastModified == GetResponseHeader(xhr, LastModifiedHeader)
                        && r.trace[i].event.data ==
                             StaleData(xhr.responseHeaders[ContentTypeHeader], xhr.responseText, parse))
                  && (forall i :: n <= i < |r.trace| ==> !r.trace[i].Trigger?))
    decreases cb
  {
    match cb
    case ErrorHandler(_) =>
    case ErrorWrapper(model, inner) =>
      if ErrorIsFunction(inner) {
        ErrorEventsFollowStatus(inner, xhr, status, message, parse);
      }
  }

  /** The caller's own error function is called once, last, with the identical
      `(xhr, status, message)` exactly when it is a function, unless a 412
      without content-type made the wrapper throw first; a value that is not a
      function is skipped. */
  lemma {:induction false} ErrorForwardsOnce(cb: ErrorCallback, xhr: Xhr, status: Value, message: Value,
                                            parse: string -> Option<Value>)
    ensures var r := ErrorRun(cb, xhr, status, message, parse);
            var throwsEarly := xhr.status == PreconditionFailed && ErrorDepth(cb) > 0 &&
                               ContentTypeHeader !in xhr.responseHeaders;
            var n := if xhr.status == PreconditionFailed then ErrorDepth(cb) else 0;
            var f := ErrorInnermost(cb);
            && (!throwsEarly ==> |r.trace| == n + (if f.Function? then 1 else 0))
            && (!throwsEarly && f.Function? ==> r.trace[n] == ErrorCall(f.id, xhr, status, message))
            && (r.completion.Threw? <==> throwsEarly || (ErrorDepth(cb) == 0 && !f.Function?))
            && (r.completion.Returned? ==> r.completion.value == Undefined)
    decreases cb
  {
    match cb
    case ErrorHandler(_) =>
    case ErrorWrapper(model, inner) =>
      if ErrorIsFunction(inner) {
        ErrorForwardsOnce(inner, xhr, status, message, parse);
      }
  }

  /** What `sync` installs around a caller's `error` (index.js:15-20). */
  lemma DecoratedError(model: SyncModel, f: Value, xhr: Xhr, status: Value, message: Value,
                       parse: string -> Option<Value>)
    requires xhr.status == PreconditionFailed ==> ContentTypeHeader in xhr.responseHeaders
    ensures var r := ErrorRun(ErrorWrapper(model, ErrorHandler(f)), xhr, status, message, parse);
            var events := if xhr.status == PreconditionFailed
              then [Trigger(InvalidLastModified(model, GetResponseHeader(xhr, LastModifiedHeader),
                      StaleData(xhr.responseHeaders[ContentTypeHeader], xhr.responseText, parse)))]
              else [];
            && r.trace == events + (if f.Function? then [ErrorCall(f.id, xhr, status, message)] else [])
            && r.completion == Returned(Undefined)
  {
  }

  // ---------------------------------------------------------------------
  // Content types and the construction error

  /** `application/json` names JSON, so its body is reported when it parses to
      a truthy value. */
  lemma JsonBodyReported(text: string, parse: string -> Option<Value>)
    requires parse(text).Some? && Truthy(parse(text).value)
    ensures StaleData("application/json", text, parse) == parse(text).value
  {
    assert OccursAt("application/json", "json", 12);
  }

  /** `text/html` does not name JSON, so the body is never parsed and `{}` is reported. */
  lemma HtmlBodyIgnored(text: string, parse: string -> Option<Value>)
    ensures StaleData("text/html", text, parse) == Object(map[])
  {
    var mime := "text/html";
    assert 'j' !in mime;
    forall k | 0 <= k <= |mime|
      ensures !OccursAt(mime, "json", k)
    {
      if k < |mime| {
        assert mime[k] in mime;
      }
    }
  }

  lemma OccursInMiddle(a: string, b: string, c: string)
    ensures OccursAt(a + b + c, b, |a|)
  {
    assert (a + b + c)[|a|..|a| + |b|] == b;
  }

  /** The factory's error message says what is missing. */
  lemma MissingSyncMessageMentionsExistingSync()
    ensures exists k :: OccursAt(MissingSyncMessage, "existing sync", k)
  {
    OccursInMiddle("Anachronisync requires an ", "existing sync", " implementation to wrap.");
  }

  /** Decorating an object without any `sync` throws an error mentioning
      "existing sync" (lib/tester.js:26-28). */
  lemma MissingSyncError()
    ensures var r := ResolveBaseSync(Object(map[]));
            r.Err? && r.error.Error? && exists k :: OccursAt(r.error.message, "existing sync", k)
  {
    MissingSyncMessageMentionsExistingSync();
  }

  // ---------------------------------------------------------------------
  // Clients: read, update, conflict

  /** A read whose response carries `last-modified: v1` and a JSON body records
      both on the model; the next update carries `if-unmodified-since: v1`. */
  method ReadThenUpdate() {
    var log := new Log();
    var base := Function(1, map["prototype" := Object(map["sync" := Function(2, map[])])]);
    var mixed := Mixin(base);
    var decorator := mixed.value;
    assert decorator.baseSync == Function(2, map[]);

    var model := new SyncModel();
    var readOptions, _ := decorator.Sync("read", model, null, log, Returned(Undefined));
    assert readOptions.headers == None;
    var body := Object(map["a" := Number(1)]);
    var response := Xhr(200, map[LastModifiedHeader := "v1", ContentTypeHeader := "application/json"], "{\"a\":1}");
    assert SuccessModels(readOptions.success) == {model};
    var _ := FireSuccess(readOptions.success, body, Str("ok"), response, log);
    assert model.lastModified == Str("v1") && model.serverState == body;

    var updateOptions, _ := decorator.Sync("update", model, null, log, Returned(Undefined));
    assert updateOptions.headers == Some(map[IfUnmodifiedSince := Str("v1")]);
  }

  /** The server's 412 with `last-modified: v2` is reported with the new version
      and body, and the model keeps the version it had. */
  method UpdateConflict(decorator: Decorator, model: SyncModel)
    requires decorator.baseSync.Function?
    requires model.lastModified == Str("v1")
  {
    var log := new Log();
    var options, _ := decorator.Sync("update", model, null, log, Returned(Undefined));
    var body := Object(map["a" := Number(2)]);
    var parse := (text: string) => if text == "{\"a\":2}" then Some(body) else None;
    var conflict := Xhr(412, map[LastModifiedHeader := "v2", ContentTypeHeader := "application/json"], "{\"a\":2}");
    JsonBodyReported(conflict.responseText, parse);
    var before := log.entries;
    var _ := FireError(options.error, conflict, Str("error"), Str("{\"a\":2}"), parse, log);
    assert log.entries == before + [Trigger(InvalidLastModified(model, Some("v2"), body))];
    assert model.lastModified == Str("v1");
  }
}
