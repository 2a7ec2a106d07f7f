/**
 * The HTTP output of libbeat: construction of the output from its
 * configuration, injection of custom fields into events, and the decisions
 * that assemble the POST request (body and headers).
 *
 * The Go code (http.go) keeps the custom headers, custom fields, capsule, signature and
 * current batch in package-level variables shared by every output built in
 * the process; `Globals` holds them, and each `HttpOutput` refers to the one
 * `Globals` it was built against. Events are maps that publishing changes in
 * place, so an `Event` is an object whose `fields` the publish methods update.
 */
module HttpOut {
  import opened Wrappers
  import opened Maps
  import opened Decimal
  import opened Template

  // ---------------------------------------------------------------------------
  // Configuration and construction

  /**
   * The options the output reads. A map that is absent in the configuration
   * is the empty map here (ranging over a nil map writes nothing);
   * `encapsulation` keeps the difference between absent and empty.
   */
  datatype Config = Config(
    host: string,
    port: int,
    customHeaders: map<string, string>,
    customFields: map<string, string>,
    encapsulation: Option<map<string, Value>>,
    encapsulationSign: string)

  datatype ConfigError = MissingHost | MissingSignature

  /** The process-wide state of the output package. */
  class Globals {
    var customHeaders: map<string, string>
    var customFields: map<string, string>
    var capsuleObject: Option<map<string, Value>>
    var signature: string
    var currentEvent: seq<Event>

    constructor ()
      ensures customHeaders == map[] && customFields == map[]
      ensures capsuleObject == None && signature == "" && currentEvent == []
    {
      customHeaders := map[];
      customFields := map[];
      capsuleObject := None;
      signature := "";
      currentEvent := [];
    }
  }

  /** An event record that publishing may change in place. */
  class Event {
    var fields: Record

    constructor (fields: Record)
      ensures this.fields == fields
    {
      this.fields := fields;
    }
  }

  /** The destination: the host alone when no port is set, otherwise host, colon and port. */
  function Url(host: string, port: int): (url: string)
    ensures url == host <==> port == 0
    ensures |url| >= |host| && url[..|host|] == host
    ensures port != 0 ==> |url| > |host| && url[|host|] == ':' && Atoi(url[|host| + 1..]) == Some(port)
    ensures port != 0 ==> url[|host| + 1..] == Itoa(port)
  {
    if port == 0 then host
    else
      var url := host + ":" + Itoa(port);
      assert url[|host| + 1..] == Itoa(port);
      AtoiItoa(port);
      url
  }

  /**
   * initHttpObject. Fails on an empty host before touching anything.
   * Otherwise it merges the configured headers and fields into the shared
   * maps and records the capsule; a capsule without a signature then fails,
   * but the merge and the capsule have already been written.
   */
  method InitHttpObject(pkg: Globals, config: Config) returns (r: Result<HttpOutput, ConfigError>)
    modifies pkg
    ensures config.host == "" ==> r == Failure(MissingHost) && unchanged(pkg)
    ensures config.host != "" ==>
      && pkg.customHeaders == Overlay(old(pkg.customHeaders), config.customHeaders)
      && pkg.customFields == Overlay(old(pkg.customFields), config.customFields)
      && pkg.capsuleObject == config.encapsulation
      && pkg.currentEvent == old(pkg.currentEvent)
    ensures config.host != "" && config.encapsulation.Some? && config.encapsulationSign == "" ==>
      r == Failure(MissingSignature)
    ensures pkg.signature ==
      if config.host != "" && config.encapsulation.Some? && config.encapsulationSign != ""
      then config.encapsulationSign else old(pkg.signature)
    ensures r.Success? <==> config.host != "" && (config.encapsulation.None? || config.encapsulationSign != "")
    ensures r.Success? ==> fresh(r.value) && r.value.url == Url(config.host, config.port) && r.value.pkg == pkg
  {
    if config.host == "" {
      return Failure(MissingHost);
    }
    var url := if config.port == 0 then config.host else config.host + ":" + Itoa(config.port);

    pkg.customHeaders := SetAll(pkg.customHeaders, config.customHeaders);
    pkg.customFields := SetAll(pkg.customFields, config.customFields);

    pkg.capsuleObject := config.encapsulation;
    if pkg.capsuleObject.Some? {
      if config.encapsulationSign == "" {
        return Failure(MissingSignature);
      } else {
        pkg.signature := config.encapsulationSign;
      }
    }
    var out := new HttpOutput(url, pkg);
    return Success(out);
  }

  // ---------------------------------------------------------------------------
  // Request assembly

  /** The request handed to the HTTP client. */
  datatype Request = Request(verb: string, url: string, headers: map<string, string>, body: Value)

  /**
   * What json.Marshal, http.NewRequest and client.Do did with the request;
   * they are outside the model and their outcome is an input.
   */
  datatype Delivery = MarshalError | RequestError | TransportError | Delivered

  /** The signal given to the pipeline. */
  datatype Signal = Completed | Failed

  /** A publish call's effect: the request built (if any), the signal, whether an error is returned. */
  datatype Publish = Publish(request: Option<Request>, signal: Signal, err: bool)

  /** The two headers set on every request before the custom ones. */
  const DefaultHeaders: map<string, string> :=
    map["X-Custom-Header" := "myvalue", "Content-Type" := "application/json"]

  /**
   * The request headers: the two defaults, then every custom header, which
   * wins where its key is the same.
   */
  function RequestHeaders(custom: map<string, string>): (h: map<string, string>)
    ensures h.Keys == custom.Keys + {"Content-Type", "X-Custom-Header"}
    ensures forall k :: k in custom ==> h[k] == custom[k]
    ensures "Content-Type" !in custom ==> h["Content-Type"] == "application/json"
    ensures "X-Custom-Header" !in custom ==> h["X-Custom-Header"] == "myvalue"
  {
    Overlay(DefaultHeaders, custom)
  }

  /**
   * The body before serialisation: the capsule with the batch substituted
   * when a signature is set (a missing capsule ranges as an empty map), the
   * raw batch otherwise.
   */
  function Body(signature: string, capsule: Option<map<string, Value>>, batch: seq<Record>): Value
  {
    if signature != "" then Object(SubstitutedMap(capsule.GetOr(map[]), signature, batch))
    else Batch(batch)
  }

  /**
   * Marshal and request-construction errors return the error but signal
   * completion; only a transport error signals failure.
   */
  function Outcome(request: Request, delivery: Delivery): (p: Publish)
    ensures p.request.Some? <==> delivery.TransportError? || delivery.Delivered?
    ensures p.request.Some? ==> p.request.value == request
    ensures p.signal == Failed <==> delivery.TransportError?
    ensures p.err <==> !delivery.Delivered?
  {
    match delivery
    case MarshalError => Publish(None, Completed, true)
    case RequestError => Publish(None, Completed, true)
    case TransportError => Publish(Some(request), Failed, true)
    case Delivered => Publish(Some(request), Completed, false)
  }

  /** The current contents of a list of events. */
  function Records(events: seq<Event>): (r: seq<Record>)
    reads events
    ensures |r| == |events| && forall i :: 0 <= i < |events| ==> r[i] == events[i].fields
  {
    seq(|events|, i reads events requires 0 <= i < |events| => events[i].fields)
  }

  /** The custom fields as values of an event. */
  function AsValues(fields: map<string, string>): (r: map<string, Value>)
    ensures r.Keys == fields.Keys && forall f :: f in fields ==> r[f] == Str(fields[f])
  {
    map f | f in fields :: Str(fields[f])
  }

  /**
   * Writes `custom` into every event of the list, key by key. An event that
   * occurs more than once gets the same fields as if it occurred once.
   */
  method InjectAll(events: seq<Event>, custom: map<string, Value>)
    modifies events
    ensures forall i :: 0 <= i < |events| ==> events[i].fields == Overlay(old(events[i].fields), custom)
  {
    ghost var done: set<Event> := {};
    var i := 0;
    while i < |events|
      invariant 0 <= i <= |events|
      invariant forall j :: 0 <= j < i ==> events[j] in done
      invariant forall j :: 0 <= j < |events| ==>
        events[j].fields == if events[j] in done then Overlay(old(events[j].fields), custom) else old(events[j].fields)
    {
      OverlayIdempotent(old(events[i].fields), custom);
      events[i].fields := SetAll(events[i].fields, custom);
      done := done + {events[i]};
      i := i + 1;
    }
  }

  /** An output bound to its destination and to the package state it shares. */
  class HttpOutput {
    const url: string
    const pkg: Globals

    constructor (url: string, pkg: Globals)
      ensures this.url == url && this.pkg == pkg
    {
      this.url := url;
      this.pkg := pkg;
    }

    /**
     * PublishEvents: records the batch as the current one, builds the body
     * and the headers, and reports according to what the client did.
     */
    method PublishEvents(events: seq<Event>, delivery: Delivery) returns (p: Publish)
      modifies pkg`currentEvent
      ensures pkg.currentEvent == events
      ensures p == Outcome(Request("POST", url, RequestHeaders(pkg.customHeaders),
                                   Body(pkg.signature, pkg.capsuleObject, Records(events))), delivery)
    {
      pkg.currentEvent := events;
      var batch := Records(pkg.currentEvent);
      var body: Value;
      if pkg.signature != "" {
        var ev := SubstituteMap(pkg.capsuleObject.GetOr(map[]), pkg.signature, batch);
        body := Object(ev);
      } else {
        body := Batch(batch);
      }
      if delivery.MarshalError? {
        return Publish(None, Completed, true);
      }
      if delivery.RequestError? {
        return Publish(None, Completed, true);
      }
      var headers := map[];
      headers := headers["X-Custom-Header" := "myvalue"];
      headers := headers["Content-Type" := "application/json"];
      headers := SetAll(headers, pkg.customHeaders);
      var req := Request("POST", url, headers, body);
      if delivery.TransportError? {
        return Publish(Some(req), Failed, true);
      }
      return Publish(Some(req), Completed, false);
    }

    /** PublishEvent: writes the custom fields into the event, then publishes it alone. */
    method PublishEvent(event: Event, delivery: Delivery) returns (p: Publish)
      modifies event, pkg`currentEvent
      ensures event.fields == Overlay(old(event.fields), AsValues(pkg.customFields))
      ensures pkg.currentEvent == [event]
      ensures p == Outcome(Request("POST", url, RequestHeaders(pkg.customHeaders),
                                   Body(pkg.signature, pkg.capsuleObject, [event.fields])), delivery)
    {
      event.fields := SetAll(event.fields, AsValues(pkg.customFields));
      p := PublishEvents([event], delivery);
      assert Records([event]) == [event.fields];
    }

    /**
     * BulkPublish: writes the custom fields into every event of the batch,
     * then publishes the batch. The same event may occur more than once.
     */
    method BulkPublish(events: seq<Event>, delivery: Delivery) returns (p: Publish)
      modifies events, pkg`currentEvent
      ensures forall i :: 0 <= i < |events| ==>
        events[i].fields == Overlay(old(events[i].fields), AsValues(pkg.customFields))
      ensures pkg.currentEvent == events
      ensures p == Outcome(Request("POST", url, RequestHeaders(pkg.customHeaders),
                                   Body(pkg.signature, pkg.capsuleObject, Records(events))), delivery)
    {
      InjectAll(events, AsValues(pkg.customFields));
      p := PublishEvents(events, delivery);
    }
  }

  // ---------------------------------------------------------------------------
  // Properties of the request

  /** Without a signature the body is the batch itself, after the custom-field merge. */
  lemma BodyWithoutSignature(capsule: Option<map<string, Value>>, batch: seq<Record>)
    ensures Body("", capsule, batch) == Batch(batch)
  {
  }

  /**
   * With a signature and a capsule, the body is the capsule with every
   * placeholder, however deep, replaced by the batch, and every other leaf
   * kept where it was.
   */
  lemma BodyWithCapsule(signature: string, capsule: map<string, Value>, batch: seq<Record>, path: seq<Step>, w: Value)
    requires signature != "" && At(Object(capsule), path) == Some(w)
    ensures w == Str(signature) ==> At(Body(signature, Some(capsule), batch), path) == Some(Batch(batch))
    ensures IsLeaf(w) && w != Str(signature) ==> At(Body(signature, Some(capsule), batch), path) == Some(w)
  {
    assert Body(signature, Some(capsule), batch) == Substituted(Object(capsule), signature, batch);
    SubstituteAt(Object(capsule), path, w, signature, batch);
  }

  /** A capsule without a placeholder is sent as configured, whatever the batch. */
  lemma CapsuleWithoutPlaceholder(signature: string, capsule: map<string, Value>, batch: seq<Record>)
    requires signature != "" && !HasPlaceholder(Object(capsule), signature)
    ensures Body(signature, Some(capsule), batch) == Object(capsule)
  {
    NoPlaceholderUnchanged(Object(capsule), signature, batch);
  }

  /**
   * Because the signature is shared and only ever overwritten, an output
   * built without a capsule after one built with a capsule and a signature
   * sends an empty object instead of its batch.
   */
  lemma StaleSignatureSendsEmptyObject(signature: string, batch: seq<Record>)
    requires signature != ""
    ensures Body(signature, None, batch) == Object(map[])
  {
  }

  /** The worked example: {"type": "batch", "payload": "EVENTS"} with one event {"msg": "hi"}. */
  lemma CapsuleExample()
    ensures Body("EVENTS", Some(map["type" := Str("batch"), "payload" := Str("EVENTS")]),
                 [map["msg" := Str("hi")]])
         == Object(map["type" := Str("batch"), "payload" := Batch([map["msg" := Str("hi")]])])
  {
  }
}
