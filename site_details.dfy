/**
 * The payload schema of PATCH /exemption/site-details: an object with a
 * required `siteDetails` object and the exemption `id`. Inside `siteDetails`,
 * `coordinatesType` decides which properties are checked and which are
 * forbidden: "file" admits the five file-upload properties, "coordinates" the
 * four manual-coordinate ones, and any other value neither. `coordinates`
 * itself is checked against the WGS84 schema when `coordinateSystem` is WGS84
 * and against the OSGB36 schema otherwise.
 *
 * The leaf schemas live in files outside this model and are parameters.
 * `Validate` follows joi: properties in schema order, the first failure wins
 * (joi's default `abortEarly`), unknown properties refused. `Conforms` states
 * the permit/forbid table on its own, and `ValidateIffConforms` ties the two.
 */
module SiteDetails {
  import opened Wrappers
  import opened Js
  import opened Constants

  const SITE_DETAILS_REQUIRED: string := "SITE_DETAILS_REQUIRED"

  /** Whether a property's value (undefined when absent) passes each leaf schema. */
  datatype LeafSchemas = LeafSchemas(
    exemptionId: Value -> bool,
    coordinatesType: Value -> bool,
    fileUploadType: Value -> bool,
    geoJSON: Value -> bool,
    featureCount: Value -> bool,
    uploadedFile: Value -> bool,
    s3Location: Value -> bool,
    coordinatesEntry: Value -> bool,
    coordinateSystem: Value -> bool,
    circleWidth: Value -> bool,
    wgs84: Value -> bool,
    osgb36: Value -> bool)

  /** The properties the `siteDetails` object declares. */
  datatype Key =
    | CoordinatesType
    | FileUploadType | GeoJson | FeatureCount | UploadedFile | S3Location
    | CoordinatesEntry | CoordinateSystem | CircleWidth | Coordinates

  function Name(k: Key): string {
    match k
    case CoordinatesType => "coordinatesType"
    case FileUploadType => "fileUploadType"
    case GeoJson => "geoJSON"
    case FeatureCount => "featureCount"
    case UploadedFile => "uploadedFile"
    case S3Location => "s3Location"
    case CoordinatesEntry => "coordinatesEntry"
    case CoordinateSystem => "coordinateSystem"
    case CircleWidth => "circleWidth"
    case Coordinates => "coordinates"
  }

  const FILE_FIELDS: seq<Key> := [FileUploadType, GeoJson, FeatureCount, UploadedFile, S3Location]
  const COORDINATE_FIELDS: seq<Key> := [CoordinatesEntry, CoordinateSystem, CircleWidth, Coordinates]
  /** The properties of `siteDetails`, in schema order. */
  const SITE_DETAILS_KEYS: seq<Key> := [CoordinatesType] + FILE_FIELDS + COORDINATE_FIELDS
  /** The properties of the payload: `siteDetails`, then the appended `id`. */
  const PAYLOAD_NAMES: set<string> := {"siteDetails", "id"}

  predicate IsFileField(k: Key) {
    k.FileUploadType? || k.GeoJson? || k.FeatureCount? || k.UploadedFile? || k.S3Location?
  }

  predicate IsCoordinateField(k: Key) {
    k.CoordinatesEntry? || k.CoordinateSystem? || k.CircleWidth? || k.Coordinates?
  }

  /** The value of a declared property; undefined when absent. */
  function Prop(fields: map<string, Value>, k: Key): Value {
    Get(fields, Name(k))
  }

  /**
   * The schema a property is checked against once its `joi.when` is resolved: a leaf
   * schema, `joi.forbidden()`, or an `alternatives().conditional(…)`, which as an optional
   * schema lets an absent value through and checks a present one against its branch.
   */
  datatype Rule = Leaf(check: Value -> bool) | Forbidden | Alternative(check: Value -> bool)

  predicate Passes(rule: Rule, v: Value) {
    match rule
    case Leaf(check) => check(v)
    case Forbidden => v == Undefined
    case Alternative(check) => v == Undefined || check(v)
  }

  /** The schema `coordinates` gets when sibling `coordinateSystem` has the value `system`. */
  function CoordinatesSchema(system: Value, leaf: LeafSchemas): Value -> bool {
    if system == Str(WGS84) then leaf.wgs84 else leaf.osgb36
  }

  /**
   * The resolved rule of a property of `siteDetails`. A `when` whose `is` is a literal
   * matches only when the sibling is present and equal to it.
   */
  function ResolvedRule(k: Key, fields: map<string, Value>, leaf: LeafSchemas): Rule {
    var fileMode := Prop(fields, CoordinatesType) == Str("file");
    var coordinatesMode := Prop(fields, CoordinatesType) == Str("coordinates");
    match k
    case CoordinatesType => Leaf(leaf.coordinatesType)
    case FileUploadType => if fileMode then Leaf(leaf.fileUploadType) else Forbidden
    case GeoJson => if fileMode then Leaf(leaf.geoJSON) else Forbidden
    case FeatureCount => if fileMode then Leaf(leaf.featureCount) else Forbidden
    case UploadedFile => if fileMode then Leaf(leaf.uploadedFile) else Forbidden
    case S3Location => if fileMode then Leaf(leaf.s3Location) else Forbidden
    case CoordinatesEntry => if coordinatesMode then Leaf(leaf.coordinatesEntry) else Forbidden
    case CoordinateSystem => if coordinatesMode then Leaf(leaf.coordinateSystem) else Forbidden
    case CircleWidth => if coordinatesMode then Leaf(leaf.circleWidth) else Forbidden
    case Coordinates =>
      if coordinatesMode then Alternative(CoordinatesSchema(Prop(fields, CoordinateSystem), leaf)) else Forbidden
  }

  /** Why a payload is refused; `path` names the property. */
  datatype SchemaError =
    | NotAnObject(path: string)
    | SiteDetailsRequired
    | Invalid(path: string)
    | NotAllowed(path: string)
    | UnknownKeys(keys: set<string>)

  /** The message of an error, where the schema sets one. */
  function Message(e: SchemaError): Option<string> {
    if e.SiteDetailsRequired? then Some(SITE_DETAILS_REQUIRED) else None
  }

  /** The properties present in `fields` that the schema does not declare. */
  function Unknown(fields: map<string, Value>, known: set<string>): set<string> {
    set k | k in fields && k !in known && fields[k] != Undefined
  }

  function Names(keys: seq<Key>): set<string> {
    set k | k in keys :: Name(k)
  }

  /** The first of `keys` whose value fails its resolved rule. */
  function FirstFailure(keys: seq<Key>, fields: map<string, Value>, leaf: LeafSchemas): Option<SchemaError> {
    if keys == [] then None
    else
      var rule := ResolvedRule(keys[0], fields, leaf);
      if !Passes(rule, Prop(fields, keys[0])) then
        Some(if rule.Forbidden? then NotAllowed("siteDetails." + Name(keys[0])) else Invalid("siteDetails." + Name(keys[0])))
      else FirstFailure(keys[1..], fields, leaf)
  }

  lemma {:induction false} FirstFailureNoneIffAllPass(keys: seq<Key>, fields: map<string, Value>, leaf: LeafSchemas)
    ensures FirstFailure(keys, fields, leaf).None? <==>
            forall k :: k in keys ==> Passes(ResolvedRule(k, fields, leaf), Prop(fields, k))
  {
    if keys != [] {
      FirstFailureNoneIffAllPass(keys[1..], fields, leaf);
      assert forall k :: k in keys <==> k == keys[0] || k in keys[1..];
    }
  }

  /**
   * `siteDetailsSchema.validate(payload)`: None when the payload is accepted. The outer
   * object is not `.required()`, so an absent payload passes.
   */
  function Validate(payload: Value, leaf: LeafSchemas): Option<SchemaError> {
    if payload == Undefined then None
    else if !payload.Obj? then Some(NotAnObject(""))
    else
      var siteDetails := Get(payload.fields, "siteDetails");
      if siteDetails == Undefined then Some(SiteDetailsRequired)
      else if !siteDetails.Obj? then Some(NotAnObject("siteDetails"))
      else
        var failure := FirstFailure(SITE_DETAILS_KEYS, siteDetails.fields, leaf);
        if failure.Some? then failure
        else if Unknown(siteDetails.fields, Names(SITE_DETAILS_KEYS)) != {} then
          Some(UnknownKeys(Unknown(siteDetails.fields, Names(SITE_DETAILS_KEYS))))
        else if !leaf.exemptionId(Get(payload.fields, "id")) then Some(Invalid("id"))
        else if Unknown(payload.fields, PAYLOAD_NAMES) != {} then Some(UnknownKeys(Unknown(payload.fields, PAYLOAD_NAMES)))
        else None
  }

  /** None of the five file-upload properties is present. */
  predicate NoFileFields(fields: map<string, Value>) {
    && Prop(fields, FileUploadType) == Undefined
    && Prop(fields, GeoJson) == Undefined
    && Prop(fields, FeatureCount) == Undefined
    && Prop(fields, UploadedFile) == Undefined
    && Prop(fields, S3Location) == Undefined
  }

  /** None of the four manual-coordinate properties is present. */
  predicate NoCoordinateFields(fields: map<string, Value>) {
    && Prop(fields, CoordinatesEntry) == Undefined
    && Prop(fields, CoordinateSystem) == Undefined
    && Prop(fields, CircleWidth) == Undefined
    && Prop(fields, Coordinates) == Undefined
  }

  predicate FileFieldsValid(fields: map<string, Value>, leaf: LeafSchemas) {
    && leaf.fileUploadType(Prop(fields, FileUploadType))
    && leaf.geoJSON(Prop(fields, GeoJson))
    && leaf.featureCount(Prop(fields, FeatureCount))
    && leaf.uploadedFile(Prop(fields, UploadedFile))
    && leaf.s3Location(Prop(fields, S3Location))
  }

  predicate CoordinateFieldsValid(fields: map<string, Value>, leaf: LeafSchemas) {
    && leaf.coordinatesEntry(Prop(fields, CoordinatesEntry))
    && leaf.coordinateSystem(Prop(fields, CoordinateSystem))
    && leaf.circleWidth(Prop(fields, CircleWidth))
    && var coordinates := Prop(fields, Coordinates);
    && (coordinates != Undefined ==>
          if Prop(fields, CoordinateSystem) == Str(WGS84) then leaf.wgs84(coordinates) else leaf.osgb36(coordinates))
  }

  /** The table's conditions on the properties of `siteDetails`. */
  predicate TableHolds(fields: map<string, Value>, leaf: LeafSchemas) {
    var coordinatesType := Prop(fields, CoordinatesType);
    && leaf.coordinatesType(coordinatesType)
    && (coordinatesType == Str("file") ==> FileFieldsValid(fields, leaf) && NoCoordinateFields(fields))
    && (coordinatesType == Str("coordinates") ==> CoordinateFieldsValid(fields, leaf) && NoFileFields(fields))
    && (coordinatesType != Str("file") && coordinatesType != Str("coordinates") ==>
          NoFileFields(fields) && NoCoordinateFields(fields))
  }

  /** The schema as a table: what each `coordinatesType` permits and forbids. */
  predicate Conforms(payload: Value, leaf: LeafSchemas) {
    || payload == Undefined
    || (&& payload.Obj?
        && var siteDetails := Get(payload.fields, "siteDetails");
        && siteDetails.Obj?
        && TableHolds(siteDetails.fields, leaf)
        && Unknown(siteDetails.fields, Names(SITE_DETAILS_KEYS)) == {}
        && leaf.exemptionId(Get(payload.fields, "id"))
        && Unknown(payload.fields, PAYLOAD_NAMES) == {})
  }

  /** Each declared property of `siteDetails`, named one by one, passes its resolved rule. */
  predicate EachKeyPasses(fields: map<string, Value>, leaf: LeafSchemas) {
    && Passes(ResolvedRule(CoordinatesType, fields, leaf), Prop(fields, CoordinatesType))
    && Passes(ResolvedRule(FileUploadType, fields, leaf), Prop(fields, FileUploadType))
    && Passes(ResolvedRule(GeoJson, fields, leaf), Prop(fields, GeoJson))
    && Passes(ResolvedRule(FeatureCount, fields, leaf), Prop(fields, FeatureCount))
    && Passes(ResolvedRule(UploadedFile, fields, leaf), Prop(fields, UploadedFile))
    && Passes(ResolvedRule(S3Location, fields, leaf), Prop(fields, S3Location))
    && Passes(ResolvedRule(CoordinatesEntry, fields, leaf), Prop(fields, CoordinatesEntry))
    && Passes(ResolvedRule(CoordinateSystem, fields, leaf), Prop(fields, CoordinateSystem))
    && Passes(ResolvedRule(CircleWidth, fields, leaf), Prop(fields, CircleWidth))
    && Passes(ResolvedRule(Coordinates, fields, leaf), Prop(fields, Coordinates))
  }

  lemma AllPassIffEachKeyPasses(fields: map<string, Value>, leaf: LeafSchemas)
    ensures (forall k :: k in SITE_DETAILS_KEYS ==> Passes(ResolvedRule(k, fields, leaf), Prop(fields, k))) <==>
            EachKeyPasses(fields, leaf)
  {
    assert SITE_DETAILS_KEYS == [CoordinatesType, FileUploadType, GeoJson, FeatureCount, UploadedFile, S3Location,
                                 CoordinatesEntry, CoordinateSystem, CircleWidth, Coordinates];
  }

  lemma EachKeyPassesIffTable(fields: map<string, Value>, leaf: LeafSchemas)
    ensures EachKeyPasses(fields, leaf) <==> TableHolds(fields, leaf)
  {
  }

  /** Every property of `siteDetails` passes its resolved rule exactly when the table's conditions hold. */
  lemma AllPassIffTable(fields: map<string, Value>, leaf: LeafSchemas)
    ensures (forall k :: k in SITE_DETAILS_KEYS ==> Passes(ResolvedRule(k, fields, leaf), Prop(fields, k))) <==>
            TableHolds(fields, leaf)
  {
    AllPassIffEachKeyPasses(fields, leaf);
    EachKeyPassesIffTable(fields, leaf);
  }

  /** The validator accepts a payload exactly when it conforms to the table. */
  lemma ValidateIffConforms(payload: Value, leaf: LeafSchemas)
    ensures Validate(payload, leaf).None? <==> Conforms(payload, leaf)
  {
    if payload.Obj? && Get(payload.fields, "siteDetails").Obj? {
      var fields := Get(payload.fields, "siteDetails").fields;
      FirstFailureNoneIffAllPass(SITE_DETAILS_KEYS, fields, leaf);
      AllPassIffTable(fields, leaf);
    }
  }

  /** A payload without `siteDetails` fails with SITE_DETAILS_REQUIRED. */
  lemma MissingSiteDetailsIsRequired(payload: Value, leaf: LeafSchemas)
    requires payload.Obj? && Get(payload.fields, "siteDetails") == Undefined
    ensures Validate(payload, leaf) == Some(SiteDetailsRequired)
    ensures Message(Validate(payload, leaf).value) == Some("SITE_DETAILS_REQUIRED")
  {
  }

  /** With `coordinatesType` "file" the file properties pass their schemas and no coordinate property is present. */
  lemma FileTypeForbidsCoordinates(payload: Value, leaf: LeafSchemas)
    requires payload.Obj? && Validate(payload, leaf).None?
    requires Prop(Get(payload.fields, "siteDetails").fields, CoordinatesType) == Str("file")
    ensures var fields := Get(payload.fields, "siteDetails").fields;
            FileFieldsValid(fields, leaf) && forall k :: IsCoordinateField(k) ==> Prop(fields, k) == Undefined
  {
    ValidateIffConforms(payload, leaf);
  }

  /** With `coordinatesType` "coordinates" the coordinate properties pass their schemas and no file property is present. */
  lemma CoordinatesTypeForbidsFile(payload: Value, leaf: LeafSchemas)
    requires payload.Obj? && Validate(payload, leaf).None?
    requires Prop(Get(payload.fields, "siteDetails").fields, CoordinatesType) == Str("coordinates")
    ensures var fields := Get(payload.fields, "siteDetails").fields;
            CoordinateFieldsValid(fields, leaf) && forall k :: IsFileField(k) ==> Prop(fields, k) == Undefined
  {
    ValidateIffConforms(payload, leaf);
  }

  /** Any other `coordinatesType` forbids all nine conditional properties. */
  lemma OtherTypeForbidsAll(payload: Value, leaf: LeafSchemas)
    requires payload.Obj? && Validate(payload, leaf).None?
    requires var t := Prop(Get(payload.fields, "siteDetails").fields, CoordinatesType);
             t != Str("file") && t != Str("coordinates")
    ensures var fields := Get(payload.fields, "siteDetails").fields;
            forall k :: k != CoordinatesType ==> Prop(fields, k) == Undefined
  {
    ValidateIffConforms(payload, leaf);
  }

  /** A present `coordinates` is checked by the WGS84 schema exactly when `coordinateSystem` is WGS84, else by OSGB36. */
  lemma CoordinatesSchemaFollowsSystem(fields: map<string, Value>, leaf: LeafSchemas)
    requires Prop(fields, CoordinatesType) == Str("coordinates") && Prop(fields, Coordinates) != Undefined
    ensures var rule := ResolvedRule(Coordinates, fields, leaf);
            var coordinates := Prop(fields, Coordinates);
            && (Prop(fields, CoordinateSystem) == Str(WGS84) ==> (Passes(rule, coordinates) <==> leaf.wgs84(coordinates)))
            && (Prop(fields, CoordinateSystem) != Str(WGS84) ==> (Passes(rule, coordinates) <==> leaf.osgb36(coordinates)))
  {
  }

  /** No accepted payload has both a file-upload property and a manual-coordinate property. */
  lemma NoAcceptedPayloadMixesModes(payload: Value, leaf: LeafSchemas, f: Key, c: Key)
    requires payload.Obj? && Validate(payload, leaf).None?
    requires IsFileField(f) && IsCoordinateField(c)
    ensures var fields := Get(payload.fields, "siteDetails").fields;
            Prop(fields, f) == Undefined || Prop(fields, c) == Undefined
  {
    ValidateIffConforms(payload, leaf);
  }
}
