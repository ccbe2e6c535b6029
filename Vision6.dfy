/** The client factory and its `call` pipeline: construction checks the API key,
    defaults the host and picks the protocol; every call prepends the key to the
    caller's argument array, waits for the schema document, validates the
    arguments, sends one JSON-RPC request and maps the response envelope. */
module Vision6 {
  import opened JsValues
  import opened Validator

  /** The production endpoint used when no host is given, written as its scheme
      followed by the rest of the URL. */
  const DefaultHost := "https" + "://www.vision6.com.au/api/jsonrpcserver.php?version=3.0"

  datatype Protocol = Http | Https

  /** What a constructed client holds: the key, the endpoint and the protocol
      the transport was created for. */
  datatype Settings = Settings(apiKey: JsValue, host: string, protocol: Protocol)

  /** One JSON-RPC request handed to the transport. */
  datatype Request = Request(protocol: Protocol, host: string, methodName: string, params: JsValue)

  /** `this.call(methodName, options)` as a named method issues it: the array
      literal it builds, or no array at all. */
  datatype Invocation = Invocation(methodName: string, options: Option<seq<JsValue>>)

  /** The transport: the decoded response envelope for a request, or a failure.
      The network is not modelled; each call is given the transport's behaviour. */
  type Transport = Request -> Result<JsValue, Error>

  /** The protocol is `https` exactly when the first five characters of the host
      are `https`, and `http` otherwise. */
  function SelectProtocol(host: string): (p: Protocol)
    ensures p == Https <==> "https" <= host
  {
    SubstrPrefix(host, "https");
    if Substr(host, 0, 5) == "https" then Https else Http
  }

  /** The factory: default a falsy host, reject a falsy key, then read the
      protocol off the host (which must be a string to have `substr`). */
  function Construct(apiKey: JsValue, host: JsValue): (r: Result<Settings, Error>)
    ensures r == Failure(InvalidApiKey) <==> !Truthy(apiKey)
    ensures Truthy(apiKey) && !Truthy(host) ==> r == Success(Settings(apiKey, DefaultHost, Https))
    ensures Truthy(apiKey) && host.Str? && Truthy(host) ==>
              r.Success? && r.value.apiKey == apiKey && r.value.host == host.s &&
              (r.value.protocol == Https <==> "https" <= host.s)
    ensures r.Success? <==> Truthy(apiKey) && (host.Str? || !Truthy(host))
    ensures r.Success? ==> r.value.apiKey == apiKey && r.value.protocol == SelectProtocol(r.value.host)
    ensures Truthy(apiKey) && Truthy(host) && !host.Str? ==> r == Failure(TypeError("host.substr is not a function"))
  {
    var h := Or(host, Str(DefaultHost));
    if !Truthy(apiKey) then Failure(InvalidApiKey)
    else if !h.Str? then Failure(TypeError("host.substr is not a function"))
    else Success(Settings(apiKey, h.s, SelectProtocol(h.s)))
  }

  /** The mapping of a response envelope to the outcome of `call`: a truthy
      `error` member rejects with it; otherwise a defined `result` member, even a
      falsy one, is the value; otherwise the whole envelope is. Reading a member
      of `null` or `undefined` is a TypeError. */
  function Interpret(envelope: JsValue): (r: Result<JsValue, Error>)
    ensures envelope.Undefined? || envelope.Null? ==> r.Failure? && r.error.TypeError?
    ensures !envelope.Undefined? && !envelope.Null? ==>
              (r.Failure? <==> Truthy(Get(envelope, "error"))) &&
              (r.Failure? ==> r.error == Remote(Get(envelope, "error"))) &&
              (r.Success? && !Get(envelope, "result").Undefined? ==> r.value == Get(envelope, "result")) &&
              (r.Success? && Get(envelope, "result").Undefined? ==> r.value == envelope)
  {
    if envelope.Undefined? || envelope.Null? then Failure(TypeError("cannot read property 'error' of " + (if envelope.Null? then "null" else "undefined")))
    else
      var error := Get(envelope, "error");
      var result := Get(envelope, "result");
      if !error.Undefined? && Truthy(error) then Failure(Remote(error))
      else if !result.Undefined? then Success(result)
      else Success(envelope)
  }

  /** The envelopes of the service's answers: `{result: R}`, `{error: E}`, `{}`. */
  lemma EnvelopeExamples(value: JsValue, message: string)
    requires !value.Undefined? && message != ""
    ensures Interpret(Obj(map["result" := value])) == Success(value)
    ensures Interpret(Obj(map["error" := Str(message)])) == Failure(Remote(Str(message)))
    ensures Interpret(Obj(map["error" := Null, "result" := Bool(false)])) == Success(Bool(false))
    ensures Interpret(Obj(map[])) == Success(Obj(map[]))
  {
  }

  /** What one invocation of `call` does: its outcome, and the request it sent
      if it got as far as the transport. */
  datatype Step = Step(outcome: Result<JsValue, Error>, sent: seq<Request>)

  /** The pipeline of `call` after the key has been prepended, as a function of
      the client's settings, its `schema_loaded` flag, the validator module and
      the transport: the load gate (consulted only while the flag is down),
      validation of `{args: args}` against the method's request schema, the
      request carrying the validated `args` (reading `args` of a validated value
      that is `null` or `undefined` is a TypeError), and the envelope mapping. */
  function Pipeline(settings: Settings, schemaLoaded: bool, load: LoadOutcome, schema: Schema,
                    transport: Transport, methodName: string, args: seq<JsValue>): (s: Step)
    ensures |s.sent| <= 1
    ensures !schemaLoaded && load.NotLoaded? ==> s == Step(Failure(load.error), [])
    ensures |s.sent| == 1 <==>
              (schemaLoaded || load.Loaded?) &&
              var v := Validate(schema, RequestSchemaRef(methodName), Obj(map["args" := Arr(args)]));
              v.Success? && !v.value.Undefined? && !v.value.Null?
    ensures |s.sent| == 1 ==>
              var data := Validate(schema, RequestSchemaRef(methodName), Obj(map["args" := Arr(args)])).value;
              s.sent[0] == Request(settings.protocol, settings.host, methodName, Get(data, "args"))
    ensures |s.sent| == 0 ==> s.outcome.Failure?
    ensures |s.sent| == 0 ==>
              var v := Validate(schema, RequestSchemaRef(methodName), Obj(map["args" := Arr(args)]));
              s.outcome.error == (if !schemaLoaded && load.NotLoaded? then load.error
                                  else if v.Failure? then v.error
                                  else TypeError("cannot read property 'args' of " + (if v.value.Null? then "null" else "undefined")))
    ensures |s.sent| == 1 ==>
              s.outcome == match transport(s.sent[0])
                           case Failure(e) => Failure(e)
                           case Success(envelope) => Interpret(envelope)
  {
    if !schemaLoaded && load.NotLoaded? then Step(Failure(load.error), [])
    else
      match Validate(schema, RequestSchemaRef(methodName), Obj(map["args" := Arr(args)]))
      case Failure(e) => Step(Failure(e), [])
      case Success(data) =>
        if data.Undefined? || data.Null? then
          Step(Failure(TypeError("cannot read property 'args' of " + (if data.Null? then "null" else "undefined"))), [])
        else
          var request := Request(settings.protocol, settings.host, methodName, Get(data, "args"));
          match transport(request)
          case Failure(e) => Step(Failure(e), [request])
          case Success(envelope) => Step(Interpret(envelope), [request])
  }

  /** Skipping the load gate once the flag is up changes nothing, because the
      flag only goes up after the one load succeeded. */
  lemma GateSkipIsSound(settings: Settings, load: LoadOutcome, schema: Schema,
                        transport: Transport, methodName: string, args: seq<JsValue>)
    requires load.Loaded?
    ensures Pipeline(settings, true, load, schema, transport, methodName, args)
         == Pipeline(settings, false, load, schema, transport, methodName, args)
  {
  }

  /** With a schema that accepts the payload unchanged, the request carries the
      key followed by exactly the caller's arguments, in order. */
  lemma CredentialInjection(settings: Settings, schemaLoaded: bool, load: LoadOutcome, schema: Schema,
                            transport: Transport, methodName: string, callerArgs: seq<JsValue>)
    requires schemaLoaded || load.Loaded?
    requires var payload := Obj(map["args" := Arr([settings.apiKey] + callerArgs)]);
             schema(RequestSchemaRef(methodName), payload) == Success(payload)
    ensures var s := Pipeline(settings, schemaLoaded, load, schema, transport, methodName, [settings.apiKey] + callerArgs);
            |s.sent| == 1 && s.sent[0].methodName == methodName &&
            s.sent[0].params.Arr? && |s.sent[0].params.elems| == |callerArgs| + 1 &&
            s.sent[0].params.elems[0] == settings.apiKey && s.sent[0].params.elems[1..] == callerArgs
  {
  }

  /** A JavaScript array the caller owns and `call` extends in place. */
  class JsArray {
    var elems: seq<JsValue>

    constructor (elems: seq<JsValue>)
      ensures this.elems == elems
    {
      this.elems := elems;
    }

    /** `a.unshift(v)`: put `v` in front and return the new length. */
    method Unshift(v: JsValue) returns (length: nat)
      modifies this
      ensures elems == [v] + old(elems)
      ensures length == |elems|
    {
      elems := [v] + elems;
      length := |elems|;
    }
  }

  /** The object the factory returns: the key, the endpoint, the protocol of its
      transport, the validator module it shares with every other client, and its
      own `schema_loaded` flag. `sent` records the requests given to the transport. */
  class Client {
    const apiKey: JsValue
    const host: string
    const protocol: Protocol
    const validator: Registry
    var schemaLoaded: bool
    ghost var sent: seq<Request>

    /** The flag is up only if the load succeeded; the key is truthy and the
        protocol is the one the host selects. */
    ghost predicate Valid()
      reads this
    {
      Truthy(apiKey) && protocol == SelectProtocol(host) &&
      (schemaLoaded ==> validator.loadSchemas.Loaded?)
    }

    function Config(): Settings
      reads this
    {
      Settings(apiKey, host, protocol)
    }

    constructor (settings: Settings, validator: Registry)
      requires Truthy(settings.apiKey) && settings.protocol == SelectProtocol(settings.host)
      ensures Valid() && Config() == settings && this.validator == validator
      ensures !schemaLoaded && sent == []
    {
      apiKey := settings.apiKey;
      host := settings.host;
      protocol := settings.protocol;
      this.validator := validator;
      schemaLoaded := false;
      sent := [];
    }

    /** `call(method_name, options)`. A null `options` stands for an absent or
        falsy one, which becomes a fresh empty array. The key is prepended to the
        array in place whatever happens next; the flag goes up when the load
        gate is passed and never comes down. */
    method Call(methodName: string, options: JsArray?, transport: Transport)
      returns (r: Result<JsValue, Error>, args: JsArray)
      requires Valid()
      modifies this, options
      ensures Valid()
      ensures options != null ==> args == options
      ensures options == null ==> fresh(args)
      ensures args.elems == [apiKey] + (if options == null then [] else old(options.elems))
      ensures schemaLoaded == (old(schemaLoaded) || validator.loadSchemas.Loaded?)
      ensures var s := Pipeline(Config(), old(schemaLoaded), validator.loadSchemas, validator.schema,
                                transport, methodName, args.elems);
              r == s.outcome && sent == old(sent) + s.sent
    {
      if options == null {
        args := new JsArray([]);
      } else {
        args := options;
      }
      var _ := args.Unshift(apiKey);

      if !schemaLoaded {
        match validator.loadSchemas
        case NotLoaded(e) =>
          r := Failure(e);
          return;
        case Loaded =>
          schemaLoaded := true;
      }

      var validated := Validate(validator.schema, RequestSchemaRef(methodName), Obj(map["args" := Arr(args.elems)]));
      if validated.Failure? {
        r := Failure(validated.error);
        return;
      }
      var data := validated.value;
      if data.Undefined? || data.Null? {
        r := Failure(TypeError("cannot read property 'args' of " + (if data.Null? then "null" else "undefined")));
        return;
      }
      var request := Request(protocol, host, methodName, Get(data, "args"));
      sent := sent + [request];
      var response := transport(request);
      if response.Failure? {
        r := Failure(response.error);
        return;
      }
      r := Interpret(response.value);
    }

    /** A named method's `return this.call(name, [...])`: the array literal is a
        fresh array, so the only state that changes is the client's own. */
    method Invoke(invocation: Invocation, transport: Transport) returns (r: Result<JsValue, Error>)
      requires Valid()
      modifies this
      ensures Valid()
      ensures schemaLoaded == (old(schemaLoaded) || validator.loadSchemas.Loaded?)
      ensures var s := Pipeline(Config(), old(schemaLoaded), validator.loadSchemas, validator.schema, transport,
                                invocation.methodName, [apiKey] + (if invocation.options.Some? then invocation.options.value else []));
              r == s.outcome && sent == old(sent) + s.sent
    {
      var options: JsArray? := null;
      if invocation.options.Some? {
        options := new JsArray(invocation.options.value);
      }
      var args;
      r, args := Call(invocation.methodName, options, transport);
    }
  }

  /** The factory: a fresh client with its flag down, or the error it throws. */
  method NewClient(apiKey: JsValue, host: JsValue, validator: Registry) returns (r: Result<Client, Error>)
    ensures r.Failure? <==> Construct(apiKey, host).Failure?
    ensures r.Failure? ==> r.error == Construct(apiKey, host).error
    ensures r.Success? ==> fresh(r.value) && r.value.Valid() && r.value.Config() == Construct(apiKey, host).value &&
                           r.value.validator == validator && !r.value.schemaLoaded && r.value.sent == []
  {
    match Construct(apiKey, host)
    case Failure(e) => r := Failure(e);
    case Success(settings) =>
      var c := new Client(settings, validator);
      r := Success(c);
  }
}
