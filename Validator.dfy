/** The schema validator the client calls before every request. The schema
    document, its dereferencing and the JSON Schema engine are not modelled: the
    verdict of the compiled schema is an oracle, and loading the document is one
    fixed outcome decided when the module is first loaded. */
module Validator {
  import opened JsValues

  /** The verdict of a compiled schema on a payload: the (possibly coerced)
      payload, or a validation error. */
  type Schema = (string, JsValue) -> Result<JsValue, Error>

  /** The settled state of the single promise that reads and dereferences the
      schema document. It is created once per process and never retried. */
  datatype LoadOutcome = Loaded | NotLoaded(error: Error)

  /** The validator module as the rest of the process sees it: one instance,
      shared by every client, whose load promise has one fixed outcome. */
  class Registry {
    const loadSchemas: LoadOutcome
    const schema: Schema

    constructor (loadSchemas: LoadOutcome, schema: Schema)
      ensures this.loadSchemas == loadSchemas && this.schema == schema
    {
      this.loadSchemas := loadSchemas;
      this.schema := schema;
    }
  }

  const MethodsPrefix := "vision6/methods/"
  const RequestSchemaSuffix := "#/requestSchema"

  /** The reference of a method's request schema in the registered document. */
  function RequestSchemaRef(methodName: string): (ref: string)
    ensures |ref| == |MethodsPrefix| + |methodName| + |RequestSchemaSuffix|
    ensures MethodsPrefix <= ref
    ensures ref[|MethodsPrefix|..|MethodsPrefix| + |methodName|] == methodName
    ensures ref[|MethodsPrefix| + |methodName|..] == RequestSchemaSuffix
  {
    MethodsPrefix + methodName + RequestSchemaSuffix
  }

  /** Distinct methods are validated against distinct schema references. */
  lemma RequestSchemaRefInjective(a: string, b: string)
    requires RequestSchemaRef(a) == RequestSchemaRef(b)
    ensures a == b
  {
  }

  /** `validator(schema, payload)`: an undefined payload is rejected whatever the
      schema's verdict (the promise has already settled when the schema runs);
      any other payload gets the schema's verdict. */
  function Validate(schema: Schema, schemaRef: string, payload: JsValue): (r: Result<JsValue, Error>)
    ensures payload.Undefined? ==> r == Failure(PayloadUndefined)
    ensures !payload.Undefined? ==> r == schema(schemaRef, payload)
  {
    if payload.Undefined? then Failure(PayloadUndefined) else schema(schemaRef, payload)
  }
}
