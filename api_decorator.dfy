/**
 * The response-schema builders of the Koa starter: each turns a model class
 * and a few options into the OpenAPI operation fragment that is handed to the
 * `OpenAPI()` decorator. The decorator itself is outside the model; the
 * fragment is the result.
 */
module ApiDecorator {
  import opened Wrappers
  import opened Json

  /** A model class as the builders see it: only its `name` is read. */
  datatype Model = Model(name: string)

  /** The `option` argument of the paginated and list builders. */
  datatype SchemaOptions = SchemaOptions(
    status: Option<int>,
    description: Option<string>,
    contentType: Option<string>)

  /** The `options` argument of `ApiResDataSchema`: `isArray` plus the common options. */
  datatype DataSchemaOptions = DataSchemaOptions(isArray: Option<bool>, common: SchemaOptions)

  /** The object passed to `OpenAPI()`: a description and the `responses` map. */
  datatype OperationDoc = OperationDoc(description: Option<string>, responses: map<string, Json>)

  const SchemaPrefix := "#/components/schemas/"
  const DefaultStatus := 200
  const DefaultContentType := "application/json"
  const DataEnvelope := "ApiResDataDTO"
  const PaginatedEnvelope := "ApiResPaginatedDTO"

  /** `{ $ref: '#/components/schemas/<name>' }` */
  function Ref(name: string): Json {
    JObj(map["$ref" := JStr(SchemaPrefix + name)])
  }

  /** `{ type: t }` */
  function TypeSchema(t: string): Json {
    JObj(map["type" := JStr(t)])
  }

  /** `{ type: 'array', items: items }` */
  function ArrayOf(items: Json): Json {
    JObj(map["type" := JStr("array"), "items" := items])
  }

  /**
   * `[String.name, Number.name, Boolean.name].includes(name)`: a typed model
   * lower-cases to a JSON Schema primitive type name.
   */
  predicate IsTypedModel(name: string)
    ensures IsTypedModel(name) ==> ToLowerAscii(name) in ["string", "number", "boolean"]
  {
    PrimitiveTypeNames();
    name in ["String", "Number", "Boolean"]
  }

  /** The schema of one item: a primitive type for the three primitive classes, a reference otherwise. */
  function ItemSchema(model: Model): (r: Json)
    ensures r.JObj? && r.fields.Keys == if IsTypedModel(model.name) then {"type"} else {"$ref"}
    ensures IsTypedModel(model.name) ==> r.fields["type"] == JStr(ToLowerAscii(model.name))
    ensures !IsTypedModel(model.name) ==> r.fields["$ref"] == JStr(SchemaPrefix + model.name)
  {
    if IsTypedModel(model.name) then TypeSchema(ToLowerAscii(model.name)) else Ref(model.name)
  }

  /** `option?.status ?? 200` */
  function StatusOf(option: Option<SchemaOptions>): int {
    if option.Some? then option.value.status.GetOr(DefaultStatus) else DefaultStatus
  }

  /** `option?.contentType ?? 'application/json'` */
  function ContentTypeOf(option: Option<SchemaOptions>): string {
    if option.Some? then option.value.contentType.GetOr(DefaultContentType) else DefaultContentType
  }

  /** `option?.description` */
  function DescriptionOf(option: Option<SchemaOptions>): Option<string> {
    if option.Some? then option.value.description else None
  }

  /** The common options inside the options of `ApiResDataSchema`. */
  function CommonOf(options: Option<DataSchemaOptions>): Option<SchemaOptions> {
    if options.Some? then Some(options.value.common) else None
  }

  /** `options?.isArray` read as a condition. */
  predicate WantsArray(options: Option<DataSchemaOptions>) {
    options.Some? && options.value.isArray == Some(true)
  }

  /**
   * The `responses` map of a fragment: one status key, one content type, and
   * a schema `allOf` the envelope reference and the `data` override.
   */
  function Responses(status: string, contentType: string, envelope: string, data: Json): map<string, Json> {
    map[status :=
      JObj(map["content" :=
        JObj(map[contentType :=
          JObj(map["schema" :=
            JObj(map["allOf" :=
              JArr([Ref(envelope), JObj(map["properties" := JObj(map["data" := data])])])])])])])]
  }

  /** The fragment shared by the three builders, with the options' defaults applied. */
  function Operation(option: Option<SchemaOptions>, envelope: string, data: Json): (r: OperationDoc)
    ensures Answers(r, option, envelope, data)
  {
    ResponsesReadBack(IntToString(StatusOf(option)), ContentTypeOf(option), envelope, data);
    OperationDoc(DescriptionOf(option), Responses(IntToString(StatusOf(option)), ContentTypeOf(option), envelope, data))
  }

  /**
   * A fragment answers for `option`: it carries the option's description, its
   * only response key is the effective status, and the schema under the
   * effective content type reads back as `envelope` with `data`.
   */
  ghost predicate Answers(doc: OperationDoc, option: Option<SchemaOptions>, envelope: string, data: Json) {
    var status := IntToString(StatusOf(option));
    && doc.description == DescriptionOf(option)
    && doc.responses.Keys == {status}
    && SchemaAt(doc.responses, status, ContentTypeOf(option)).Some?
    && EnvelopeAndData(SchemaAt(doc.responses, status, ContentTypeOf(option)).value) == Some((envelope, data))
  }

  /** `ApiResPaginatedSchema(model, option)`: items are always referenced by name. */
  function ApiResPaginatedSchema(model: Model, option: Option<SchemaOptions>): (r: OperationDoc)
    ensures Answers(r, option, PaginatedEnvelope, ArrayOf(Ref(model.name)))
  {
    Operation(option, PaginatedEnvelope, ArrayOf(Ref(model.name)))
  }

  /** The `properties` value of `ApiResDataSchema`. */
  function DataSchema(model: Model, isArray: bool): Json {
    if isArray then ArrayOf(ItemSchema(model)) else ItemSchema(model)
  }

  /** `ApiResDataSchema(model, options)` */
  function ApiResDataSchema(model: Model, options: Option<DataSchemaOptions>): (r: OperationDoc)
    ensures Answers(r, CommonOf(options), DataEnvelope, DataSchema(model, WantsArray(options)))
  {
    Operation(CommonOf(options), DataEnvelope, DataSchema(model, WantsArray(options)))
  }

  /** `ApiResDataListSchema(model, option)` */
  function ApiResDataListSchema(model: Model, option: Option<SchemaOptions>): (r: OperationDoc)
    ensures Answers(r, option, DataEnvelope, ArrayOf(ItemSchema(model)))
  {
    Operation(option, DataEnvelope, ArrayOf(ItemSchema(model)))
  }

  // ---------------------------------------------------------------------------
  // Reading a fragment back

  /** The schema found under `status` and `contentType`, if there is one. */
  function SchemaAt(responses: map<string, Json>, status: string, contentType: string): Option<Json> {
    if status in responses && responses[status].JObj? && "content" in responses[status].fields
       && responses[status].fields["content"].JObj? && contentType in responses[status].fields["content"].fields
    then
      var media := responses[status].fields["content"].fields[contentType];
      if media.JObj? && "schema" in media.fields then Some(media.fields["schema"]) else None
    else None
  }

  /** The envelope name and the `data` schema of an `allOf` of exactly two entries, in that order. */
  function EnvelopeAndData(schema: Json): Option<(string, Json)> {
    if schema.JObj? && schema.fields.Keys == {"allOf"} && schema.fields["allOf"].JArr?
       && |schema.fields["allOf"].items| == 2
    then
      var first, second := schema.fields["allOf"].items[0], schema.fields["allOf"].items[1];
      if first.JObj? && first.fields.Keys == {"$ref"} && first.fields["$ref"].JStr?
         && |SchemaPrefix| <= |first.fields["$ref"].s| && first.fields["$ref"].s[..|SchemaPrefix|] == SchemaPrefix
         && second.JObj? && second.fields.Keys == {"properties"} && second.fields["properties"].JObj?
         && second.fields["properties"].fields.Keys == {"data"}
      then Some((first.fields["$ref"].s[|SchemaPrefix|..], second.fields["properties"].fields["data"]))
      else None
    else None
  }

  /**
   * Reading a `responses` map back: it has exactly one status key, under it
   * exactly one content type, and its schema is `allOf` the envelope
   * reference and the `data` override; the reading recovers all four.
   */
  lemma ResponsesReadBack(status: string, contentType: string, envelope: string, data: Json)
    ensures var r := Responses(status, contentType, envelope, data);
      && r.Keys == {status}
      && r[status].fields.Keys == {"content"}
      && r[status].fields["content"].fields.Keys == {contentType}
      && SchemaAt(r, status, contentType).Some?
      && EnvelopeAndData(SchemaAt(r, status, contentType).value) == Some((envelope, data))
  {
    var schema := JObj(map["allOf" := JArr([Ref(envelope), JObj(map["properties" := JObj(map["data" := data])])])]);
    var r := Responses(status, contentType, envelope, data);
    assert SchemaAt(r, status, contentType) == Some(schema);
    assert (SchemaPrefix + envelope)[..|SchemaPrefix|] == SchemaPrefix;
    assert (SchemaPrefix + envelope)[|SchemaPrefix|..] == envelope;
  }

  /** Two `responses` maps are equal only when they agree on status, content type, envelope and data. */
  lemma ResponsesInjective(s1: string, c1: string, e1: string, d1: Json, s2: string, c2: string, e2: string, d2: Json)
    requires Responses(s1, c1, e1, d1) == Responses(s2, c2, e2, d2)
    ensures s1 == s2 && c1 == c2 && e1 == e2 && d1 == d2
  {
    ResponsesReadBack(s1, c1, e1, d1);
    ResponsesReadBack(s2, c2, e2, d2);
    assert s1 in {s2};
    assert c1 in Responses(s2, c2, e2, d2)[s2].fields["content"].fields.Keys;
  }

  // ---------------------------------------------------------------------------
  // Properties of the builders

  /** Without options, every builder answers under status `"200"` with content type `application/json`. */
  lemma DefaultsApply(model: Model)
    ensures ApiResDataSchema(model, None)
         == OperationDoc(None, Responses("200", "application/json", DataEnvelope, DataSchema(model, false)))
    ensures ApiResDataListSchema(model, None)
         == OperationDoc(None, Responses("200", "application/json", DataEnvelope, ArrayOf(ItemSchema(model))))
    ensures ApiResPaginatedSchema(model, None)
         == OperationDoc(None, Responses("200", "application/json", PaginatedEnvelope, ArrayOf(Ref(model.name))))
  {
    assert IntToString(200) == "200";
  }

  /** Options that leave status and content type unset get the same defaults, and keep their description. */
  lemma UnsetOptionsDefault(model: Model, description: Option<string>, isArray: Option<bool>)
    ensures var o := SchemaOptions(None, description, None);
      && ApiResPaginatedSchema(model, Some(o))
         == OperationDoc(description, Responses("200", "application/json", PaginatedEnvelope, ArrayOf(Ref(model.name))))
      && ApiResDataListSchema(model, Some(o))
         == OperationDoc(description, Responses("200", "application/json", DataEnvelope, ArrayOf(ItemSchema(model))))
      && ApiResDataSchema(model, Some(DataSchemaOptions(isArray, o)))
         == OperationDoc(description, Responses("200", "application/json", DataEnvelope, DataSchema(model, isArray == Some(true))))
  {
    assert IntToString(200) == "200";
  }

  /** A given status and content type are used as they are. */
  lemma GivenStatusAndContentType(model: Model, status: int, contentType: string, description: Option<string>,
                                  isArray: Option<bool>)
    ensures var o := SchemaOptions(Some(status), description, Some(contentType));
      && ApiResPaginatedSchema(model, Some(o)).responses
         == Responses(IntToString(status), contentType, PaginatedEnvelope, ArrayOf(Ref(model.name)))
      && ApiResDataSchema(model, Some(DataSchemaOptions(isArray, o))).responses
         == Responses(IntToString(status), contentType, DataEnvelope, DataSchema(model, isArray == Some(true)))
      && ApiResDataListSchema(model, Some(o)).responses
         == Responses(IntToString(status), contentType, DataEnvelope, ArrayOf(ItemSchema(model)))
  {
    var o := SchemaOptions(Some(status), description, Some(contentType));
    assert StatusOf(Some(o)) == status && ContentTypeOf(Some(o)) == contentType;
    assert CommonOf(Some(DataSchemaOptions(isArray, o))) == Some(o);
  }

  /** Fragments built for different statuses answer under different keys. */
  lemma DistinctStatusesDistinctKeys(model: Model, o1: Option<DataSchemaOptions>, o2: Option<DataSchemaOptions>)
    requires StatusOf(CommonOf(o1)) != StatusOf(CommonOf(o2))
    ensures ApiResDataSchema(model, o1).responses.Keys !! ApiResDataSchema(model, o2).responses.Keys
  {
    IntToStringInjective(StatusOf(CommonOf(o1)), StatusOf(CommonOf(o2)));
  }

  /** The three primitive classes lower-case to the JSON Schema type names. */
  lemma PrimitiveTypeNames()
    ensures ToLowerAscii("String") == "string"
    ensures ToLowerAscii("Number") == "number"
    ensures ToLowerAscii("Boolean") == "boolean"
  {
  }

  /** For a primitive class, `ApiResDataSchema` emits `{type: <lower-cased name>}` and no `$ref`. */
  lemma DataSchemaPrimitive(model: Model)
    requires IsTypedModel(model.name)
    ensures DataSchema(model, false) == TypeSchema(ToLowerAscii(model.name))
    ensures "$ref" !in DataSchema(model, false).fields
    ensures "$ref" !in DataSchema(model, true).fields && "$ref" !in DataSchema(model, true).fields["items"].fields
  {
  }

  /** For any other class, the data schema references the class by name. */
  lemma DataSchemaReference(model: Model)
    requires !IsTypedModel(model.name)
    ensures DataSchema(model, false) == Ref(model.name)
    ensures DataSchema(model, true) == ArrayOf(Ref(model.name))
  {
  }

  /** `isArray` wraps exactly the schema produced without it; everything else stays the same. */
  lemma IsArrayWraps(model: Model, common: SchemaOptions)
    ensures ApiResDataSchema(model, Some(DataSchemaOptions(Some(true), common)))
         == Operation(Some(common), DataEnvelope, ArrayOf(DataSchema(model, false)))
    ensures ApiResDataSchema(model, Some(DataSchemaOptions(None, common)))
         == Operation(Some(common), DataEnvelope, DataSchema(model, false))
    ensures ApiResDataSchema(model, Some(DataSchemaOptions(Some(false), common)))
         == ApiResDataSchema(model, Some(DataSchemaOptions(None, common)))
  {
  }

  /** `ApiResDataListSchema(m, o)` is `ApiResDataSchema(m, {...o, isArray: true})`. */
  lemma ListIsDataArray(model: Model, option: Option<SchemaOptions>)
    ensures ApiResDataListSchema(model, option)
         == ApiResDataSchema(model, Some(DataSchemaOptions(Some(true), option.GetOr(SchemaOptions(None, None, None)))))
  {
  }

  /** The paginated builder never applies the primitive case: its items are always a `$ref`, under its own envelope. */
  lemma PaginatedAlwaysReferences(model: Model, option: Option<SchemaOptions>)
    ensures var r := ApiResPaginatedSchema(model, option).responses;
      var schema := SchemaAt(r, IntToString(StatusOf(option)), ContentTypeOf(option));
      && schema.Some?
      && EnvelopeAndData(schema.value) == Some((PaginatedEnvelope, ArrayOf(Ref(model.name))))
  {
    ResponsesReadBack(IntToString(StatusOf(option)), ContentTypeOf(option), PaginatedEnvelope, ArrayOf(Ref(model.name)));
  }

  /** So for a primitive class the paginated and the list builder disagree on more than the envelope. */
  lemma PaginatedListAsymmetry(model: Model, option: Option<SchemaOptions>)
    requires IsTypedModel(model.name)
    ensures ArrayOf(Ref(model.name)) != ArrayOf(ItemSchema(model))
    ensures ApiResPaginatedSchema(model, option) != ApiResDataListSchema(model, option)
  {
    assert "$ref" in Ref(model.name).fields;
    assert "$ref" !in ItemSchema(model).fields;
    assert ArrayOf(Ref(model.name)).fields["items"] != ArrayOf(ItemSchema(model)).fields["items"];
    if ApiResPaginatedSchema(model, option) == ApiResDataListSchema(model, option) {
      var s, c := IntToString(StatusOf(option)), ContentTypeOf(option);
      ResponsesInjective(s, c, PaginatedEnvelope, ArrayOf(Ref(model.name)), s, c, DataEnvelope, ArrayOf(ItemSchema(model)));
    }
  }
}
