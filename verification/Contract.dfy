/**
 The versioned deploy.jobs message: its Go decoder and validator, the AMQP
 envelope around it, and the JSON Schema that is its stated source of truth.
 JSON documents are value trees, so what survives encoding is proved here and
 not assumed.
 */
module Contract {
  import opened Wrappers

  // ---------- JSON ----------

  // The member names that the messages of this system use.
  datatype Key =
    | KVersion | KEventId | KDeploymentId | KProjectId | KInstallationId | KRepositoryId | KCloneUrl
    | KCommitSha | KRequestedRef | KTrigger | KGeneration | KRetryCount | KCorrelationId | KConfiguration
    | KExecutable | KArgs | KWorkingDir | KScannerPolicyVersion
    | KStatus | KOutputUrl | KErrorMessage

  // The members of an object that bear one of those names, and all others.
  // JInt is a number literal without fraction or exponent, the only kind that
  // Go stores into an integer field; JFloat is every other number literal.
  datatype Json =
    | JNull
    | JBool(b: bool)
    | JInt(n: int)
    | JFloat(r: real)
    | JString(s: string)
    | JArray(elems: seq<Json>)
    | JObject(fields: map<Key, Json>, others: map<string, Json>)

  // The bytes of a message: either no JSON at all or one document.
  datatype Body = Malformed | Doc(json: Json)

  // ---------- The message ----------

  // args is a Go slice: None is the nil slice, Some([]) the empty one.
  datatype Configuration = Configuration(
    executable: string,
    args: Option<seq<string>>,
    workingDir: string,
    scannerPolicyVersion: string)

  datatype BuildRequest = BuildRequest(
    version: int64,
    eventId: string,
    deploymentId: string,
    projectId: string,
    installationId: int64,
    repositoryId: int64,
    cloneUrl: string,
    commitSha: string,
    requestedRef: string,
    trigger: string,
    generation: int64,
    retryCount: int64,
    correlationId: string,
    configuration: Configuration)

  const VERSION_V1: int64 := 1
  const CONTENT_TYPE_JSON := "application/json"
  const TRIGGER_MANUAL := "manual"
  const TRIGGER_WEBHOOK_PUSH := "webhook_push"

  predicate LowerHex(c: char) { '0' <= c <= '9' || 'a' <= c <= 'f' }

  predicate CommitSha(s: string) {
    |s| == 40 && forall i | 0 <= i < |s| :: LowerHex(s[i])
  }

  datatype Error =
    | NotJson
    | UnsupportedVersion
    | Missing(field: Key)
    | BadCommitSha
    | BadTrigger
    | NegativeGeneration
    | NegativeRetryCount
    | BadContentType
    | MessageIdMismatch
    | CorrelationIdMismatch
    | BadHeader

  /** The first violated rule in the order of Go's switch, or None. */
  function Validate(b: BuildRequest): Option<Error> {
    if b.version != VERSION_V1 then Some(UnsupportedVersion)
    else if b.eventId == "" then Some(Missing(KEventId))
    else if b.deploymentId == "" then Some(Missing(KDeploymentId))
    else if b.projectId == "" then Some(Missing(KProjectId))
    else if b.installationId <= 0 then Some(Missing(KInstallationId))
    else if b.repositoryId <= 0 then Some(Missing(KRepositoryId))
    else if b.cloneUrl == "" then Some(Missing(KCloneUrl))
    else if !CommitSha(b.commitSha) then Some(BadCommitSha)
    else if b.trigger != TRIGGER_MANUAL && b.trigger != TRIGGER_WEBHOOK_PUSH then Some(BadTrigger)
    else if b.generation < 0 then Some(NegativeGeneration)
    else if b.retryCount < 0 then Some(NegativeRetryCount)
    else if b.correlationId == "" then Some(Missing(KCorrelationId))
    else if b.configuration.executable == "" then Some(Missing(KExecutable))
    else if b.configuration.args.None? then Some(Missing(KArgs))
    else if b.configuration.workingDir == "" then Some(Missing(KWorkingDir))
    else if b.configuration.scannerPolicyVersion == "" then Some(Missing(KScannerPolicyVersion))
    else None
  }

  predicate Valid(b: BuildRequest) { Validate(b).None? }

  // ---------- Go's json.Unmarshal into the struct ----------

  // A missing key and a null both leave the field at its zero value.
  function Field(o: map<Key, Json>, key: Key): Json {
    if key in o then o[key] else JNull
  }

  function DecodeString(j: Json): Option<string> {
    if j.JNull? then Some("") else if j.JString? then Some(j.s) else None
  }

  function DecodeInt(j: Json): Option<int64> {
    if j.JNull? then Some(0)
    else if j.JInt? && MIN_INT64 <= j.n <= MAX_INT64 then Some(j.n as int64)
    else None
  }

  function DecodeStrings(js: seq<Json>): (r: Option<seq<string>>)
    ensures r.Some? <==> forall i | 0 <= i < |js| :: DecodeString(js[i]).Some?
    ensures r.Some? ==> |r.value| == |js| && forall i | 0 <= i < |js| :: DecodeString(js[i]) == Some(r.value[i])
  {
    if js == [] then Some([])
    else match (DecodeString(js[0]), DecodeStrings(js[1..]))
      case (Some(s), Some(rest)) => Some([s] + rest)
      case _ => None
  }

  function DecodeArgs(j: Json): Option<Option<seq<string>>> {
    if j.JNull? then Some(None)
    else if j.JArray? && DecodeStrings(j.elems).Some? then Some(Some(DecodeStrings(j.elems).value))
    else None
  }

  function DecodeConfiguration(j: Json): Option<Configuration> {
    if j.JNull? then Some(Configuration("", None, "", ""))
    else if !j.JObject? then None
    else
      var e, a := DecodeString(Field(j.fields, KExecutable)), DecodeArgs(Field(j.fields, KArgs));
      var w, p := DecodeString(Field(j.fields, KWorkingDir)), DecodeString(Field(j.fields, KScannerPolicyVersion));
      if e.None? || a.None? || w.None? || p.None? then None
      else Some(Configuration(e.value, a.value, w.value, p.value))
  }

  predicate TextKey(key: Key) {
    key.KEventId? || key.KDeploymentId? || key.KProjectId? || key.KCloneUrl? || key.KCommitSha?
    || key.KRequestedRef? || key.KTrigger? || key.KCorrelationId?
  }

  predicate NumberKey(key: Key) {
    key.KVersion? || key.KInstallationId? || key.KRepositoryId? || key.KGeneration? || key.KRetryCount?
  }

  predicate RequestKey(key: Key) {
    TextKey(key) || NumberKey(key) || key.KConfiguration?
  }

  // What a struct field can hold.
  datatype Value = VText(s: string) | VNumber(n: int64) | VConfiguration(c: Configuration)

  function FieldOf(b: BuildRequest, key: Key): (v: Value)
    requires RequestKey(key)
    ensures if TextKey(key) then v.VText? else if NumberKey(key) then v.VNumber? else v.VConfiguration?
  {
    match key
    case KVersion => VNumber(b.version)
    case KEventId => VText(b.eventId)
    case KDeploymentId => VText(b.deploymentId)
    case KProjectId => VText(b.projectId)
    case KInstallationId => VNumber(b.installationId)
    case KRepositoryId => VNumber(b.repositoryId)
    case KCloneUrl => VText(b.cloneUrl)
    case KCommitSha => VText(b.commitSha)
    case KRequestedRef => VText(b.requestedRef)
    case KTrigger => VText(b.trigger)
    case KGeneration => VNumber(b.generation)
    case KRetryCount => VNumber(b.retryCount)
    case KCorrelationId => VText(b.correlationId)
    case KConfiguration => VConfiguration(b.configuration)
  }

  lemma FieldsDetermineRequest(b: BuildRequest, c: BuildRequest)
    requires forall key | RequestKey(key) :: FieldOf(b, key) == FieldOf(c, key)
    ensures b == c
  {
    NumbersAgree(b, c);
    TextsAgree(b, c);
    assert b.configuration == c.configuration by {
      assert FieldOf(b, KConfiguration) == FieldOf(c, KConfiguration);
    }
  }

  lemma NumbersAgree(b: BuildRequest, c: BuildRequest)
    requires forall key | RequestKey(key) :: FieldOf(b, key) == FieldOf(c, key)
    ensures b.version == c.version && b.installationId == c.installationId && b.repositoryId == c.repositoryId
    ensures b.generation == c.generation && b.retryCount == c.retryCount
  {
    assert FieldOf(b, KVersion) == FieldOf(c, KVersion) && FieldOf(b, KGeneration) == FieldOf(c, KGeneration);
    assert FieldOf(b, KInstallationId) == FieldOf(c, KInstallationId);
    assert FieldOf(b, KRepositoryId) == FieldOf(c, KRepositoryId) && FieldOf(b, KRetryCount) == FieldOf(c, KRetryCount);
  }

  lemma TextsAgree(b: BuildRequest, c: BuildRequest)
    requires forall key | RequestKey(key) :: FieldOf(b, key) == FieldOf(c, key)
    ensures b.eventId == c.eventId && b.deploymentId == c.deploymentId && b.projectId == c.projectId
    ensures b.cloneUrl == c.cloneUrl && b.commitSha == c.commitSha
    ensures b.requestedRef == c.requestedRef && b.trigger == c.trigger && b.correlationId == c.correlationId
  {
    assert b.eventId == c.eventId && b.deploymentId == c.deploymentId by {
      assert FieldOf(b, KEventId) == FieldOf(c, KEventId) && FieldOf(b, KDeploymentId) == FieldOf(c, KDeploymentId);
    }
    assert b.projectId == c.projectId && b.cloneUrl == c.cloneUrl by {
      assert FieldOf(b, KProjectId) == FieldOf(c, KProjectId) && FieldOf(b, KCloneUrl) == FieldOf(c, KCloneUrl);
    }
    assert b.commitSha == c.commitSha && b.requestedRef == c.requestedRef by {
      assert FieldOf(b, KCommitSha) == FieldOf(c, KCommitSha) && FieldOf(b, KRequestedRef) == FieldOf(c, KRequestedRef);
    }
    assert b.trigger == c.trigger && b.correlationId == c.correlationId by {
      assert FieldOf(b, KTrigger) == FieldOf(c, KTrigger) && FieldOf(b, KCorrelationId) == FieldOf(c, KCorrelationId);
    }
  }

  function DecodeField(key: Key, f: Json): (v: Option<Value>)
    ensures v.Some? ==>
              if TextKey(key) then v.value.VText? else if NumberKey(key) then v.value.VNumber? else v.value.VConfiguration?
  {
    if TextKey(key) then (match DecodeString(f) case Some(s) => Some(VText(s)) case None => None)
    else if NumberKey(key) then (match DecodeInt(f) case Some(n) => Some(VNumber(n)) case None => None)
    else (match DecodeConfiguration(f) case Some(c) => Some(VConfiguration(c)) case None => None)
  }

  predicate Decodable(o: map<Key, Json>) {
    forall key | RequestKey(key) :: DecodeField(key, Field(o, key)).Some?
  }

  function Text(o: map<Key, Json>, key: Key): string
    requires Decodable(o) && TextKey(key)
  {
    DecodeField(key, Field(o, key)).value.s
  }

  function Number(o: map<Key, Json>, key: Key): int64
    requires Decodable(o) && NumberKey(key)
  {
    DecodeField(key, Field(o, key)).value.n
  }

  function DecodeObject(o: map<Key, Json>): (r: Option<BuildRequest>)
    ensures r.Some? <==> Decodable(o)
  {
    if !Decodable(o) then None
    else
      Some(BuildRequest(
             Number(o, KVersion), Text(o, KEventId), Text(o, KDeploymentId), Text(o, KProjectId),
             Number(o, KInstallationId), Number(o, KRepositoryId), Text(o, KCloneUrl), Text(o, KCommitSha),
             Text(o, KRequestedRef), Text(o, KTrigger), Number(o, KGeneration), Number(o, KRetryCount),
             Text(o, KCorrelationId), DecodeField(KConfiguration, Field(o, KConfiguration)).value.c))
  }

  lemma DecodedFields(o: map<Key, Json>, key: Key)
    requires Decodable(o) && RequestKey(key)
    ensures DecodeField(key, Field(o, key)) == Some(FieldOf(DecodeObject(o).value, key))
  {}

  const ZERO_REQUEST :=
    BuildRequest(0, "", "", "", 0, 0, "", "", "", "", 0, 0, "", Configuration("", None, "", ""))

  function Unmarshal(body: Body): Option<BuildRequest> {
    match body
    case Malformed => None
    case Doc(JNull) => Some(ZERO_REQUEST)
    case Doc(JObject(o, _)) => DecodeObject(o)
    case Doc(_) => None
  }

  function DecodeV1(body: Body): Result<BuildRequest, Error> {
    match Unmarshal(body)
    case None => Err(NotJson)
    case Some(req) => if Validate(req).Some? then Err(Validate(req).value) else Ok(req)
  }

  // ---------- Go's json.Marshal of the struct ----------

  function EncodeStrings(ss: seq<string>): (js: seq<Json>)
    ensures |js| == |ss| && forall i | 0 <= i < |ss| :: js[i] == JString(ss[i])
  {
    seq(|ss|, i requires 0 <= i < |ss| => JString(ss[i]))
  }

  function EncodeConfiguration(c: Configuration): Json {
    JObject(map[
      KExecutable := JString(c.executable),
      KArgs := if c.args.None? then JNull else JArray(EncodeStrings(c.args.value)),
      KWorkingDir := JString(c.workingDir),
      KScannerPolicyVersion := JString(c.scannerPolicyVersion)], map[])
  }

  function EncodeValue(v: Value): Json {
    match v
    case VText(s) => JString(s)
    case VNumber(n) => JInt(n as int)
    case VConfiguration(c) => EncodeConfiguration(c)
  }

  /** requested_ref carries omitempty: the empty string is not written. */
  function Encode(b: BuildRequest): (j: Json)
    ensures j.JObject?
  {
    JObject(map key | RequestKey(key) && !(key == KRequestedRef && b.requestedRef == "") ::
              EncodeValue(FieldOf(b, key)), map[])
  }

  lemma FieldRoundTrip(b: BuildRequest, key: Key)
    requires RequestKey(key)
    ensures DecodeField(key, Field(Encode(b).fields, key)) == Some(FieldOf(b, key))
  {
    ConfigurationRoundTrip(b.configuration);
  }

  /** Decoding undoes encoding for every request, valid or not. */
  lemma RoundTrip(b: BuildRequest)
    ensures Unmarshal(Doc(Encode(b))) == Some(b)
  {
    hide Encode, DecodeObject;
    forall key | RequestKey(key) ensures DecodeField(key, Field(Encode(b).fields, key)) == Some(FieldOf(b, key)) {
      FieldRoundTrip(b, key);
    }
    DecodesFieldByField(Encode(b).fields, b);
  }

  lemma DecodesFieldByField(o: map<Key, Json>, b: BuildRequest)
    requires forall key | RequestKey(key) :: DecodeField(key, Field(o, key)) == Some(FieldOf(b, key))
    ensures DecodeObject(o) == Some(b)
  {
    var c := DecodeObject(o).value;
    forall key | RequestKey(key) ensures FieldOf(b, key) == FieldOf(c, key) {
      DecodedFields(o, key);
    }
    FieldsDetermineRequest(b, c);
  }

  lemma ConfigurationRoundTrip(c: Configuration)
    ensures DecodeConfiguration(EncodeConfiguration(c)) == Some(c)
  {
    if c.args.Some? {
      var js := EncodeStrings(c.args.value);
      assert DecodeStrings(js).value == c.args.value;
    }
  }

  // ---------- Which member is which field ----------

  // A member that is absent or null leaves its field at the zero value.
  predicate TextIs(o: map<Key, Json>, key: Key, s: string) {
    if key in o && !o[key].JNull? then o[key] == JString(s) else s == ""
  }

  predicate NumberIs(o: map<Key, Json>, key: Key, n: int64) {
    if key in o && !o[key].JNull? then o[key] == JInt(n as int) else n == 0
  }

  predicate ElementsAre(js: seq<Json>, ss: seq<string>) {
    |js| == |ss| && forall i | 0 <= i < |js| :: if js[i].JNull? then ss[i] == "" else js[i] == JString(ss[i])
  }

  predicate ArgsAre(o: map<Key, Json>, args: Option<seq<string>>) {
    if KArgs in o && !o[KArgs].JNull? then o[KArgs].JArray? && args.Some? && ElementsAre(o[KArgs].elems, args.value) else args.None?
  }

  predicate ConfigurationIs(o: map<Key, Json>, c: Configuration) {
    if KConfiguration in o && !o[KConfiguration].JNull? then
      && o[KConfiguration].JObject?
      && var m := o[KConfiguration].fields;
         TextIs(m, KExecutable, c.executable) && ArgsAre(m, c.args) && TextIs(m, KWorkingDir, c.workingDir)
         && TextIs(m, KScannerPolicyVersion, c.scannerPolicyVersion)
    else c.executable == "" && c.args.None? && c.workingDir == "" && c.scannerPolicyVersion == ""
  }

  /** Every field is what the member of its own name says. */
  predicate FieldsAre(o: map<Key, Json>, r: BuildRequest) {
    && NumberIs(o, KVersion, r.version) && TextIs(o, KEventId, r.eventId) && TextIs(o, KDeploymentId, r.deploymentId)
    && TextIs(o, KProjectId, r.projectId) && NumberIs(o, KInstallationId, r.installationId)
    && NumberIs(o, KRepositoryId, r.repositoryId) && TextIs(o, KCloneUrl, r.cloneUrl) && TextIs(o, KCommitSha, r.commitSha)
    && TextIs(o, KRequestedRef, r.requestedRef) && TextIs(o, KTrigger, r.trigger) && NumberIs(o, KGeneration, r.generation)
    && NumberIs(o, KRetryCount, r.retryCount) && TextIs(o, KCorrelationId, r.correlationId) && ConfigurationIs(o, r.configuration)
  }

  lemma ElementsExactly(js: seq<Json>, ss: seq<string>)
    ensures DecodeStrings(js) == Some(ss) <==> ElementsAre(js, ss)
  {
    if ElementsAre(js, ss) {
      assert forall i | 0 <= i < |js| :: DecodeString(js[i]) == Some(ss[i]);
      assert DecodeStrings(js).value == ss;
    }
    if DecodeStrings(js) == Some(ss) {
      assert forall i | 0 <= i < |js| :: DecodeString(js[i]) == Some(ss[i]);
    }
  }

  lemma ConfigurationExactly(o: map<Key, Json>, c: Configuration)
    ensures DecodeConfiguration(Field(o, KConfiguration)) == Some(c) <==> ConfigurationIs(o, c)
  {
    hide DecodeStrings, ElementsAre;
    if KConfiguration in o && o[KConfiguration].JObject? {
      var m := o[KConfiguration].fields;
      if KArgs in m && m[KArgs].JArray? && c.args.Some? {
        ElementsExactly(m[KArgs].elems, c.args.value);
      }
    }
  }

  // What one field is decoded to.
  lemma FieldExactly(o: map<Key, Json>, r: BuildRequest, key: Key)
    requires RequestKey(key)
    ensures DecodeField(key, Field(o, key)) == Some(FieldOf(r, key)) <==>
              match FieldOf(r, key)
              case VText(s) => TextIs(o, key, s)
              case VNumber(n) => NumberIs(o, key, n)
              case VConfiguration(c) => ConfigurationIs(o, c)
  {
    ConfigurationExactly(o, r.configuration);
    hide DecodeConfiguration, ConfigurationIs;
  }

  lemma AllFields(o: map<Key, Json>, r: BuildRequest)
    requires FieldsAre(o, r)
    ensures forall key | RequestKey(key) :: DecodeField(key, Field(o, key)) == Some(FieldOf(r, key))
  {
    hide DecodeField, TextIs, NumberIs, ConfigurationIs;
    forall key | RequestKey(key) ensures DecodeField(key, Field(o, key)) == Some(FieldOf(r, key)) {
      FieldExactly(o, r, key);
    }
  }

  /** A document is decoded to the request whose every field is the member of its own name, and to no other. */
  lemma UnmarshalExactly(o: map<Key, Json>, others: map<string, Json>, r: BuildRequest)
    ensures Unmarshal(Doc(JObject(o, others))) == Some(r) <==> FieldsAre(o, r)
  {
    hide DecodeField, TextIs, NumberIs, ConfigurationIs, DecodeObject;
    if FieldsAre(o, r) {
      AllFields(o, r);
      DecodesFieldByField(o, r);
    }
    if DecodeObject(o) == Some(r) {
      TextsAre(o, r);
      NumbersAre(o, r);
    }
  }

  lemma TextsAre(o: map<Key, Json>, r: BuildRequest)
    requires DecodeObject(o) == Some(r)
    ensures TextIs(o, KEventId, r.eventId) && TextIs(o, KDeploymentId, r.deploymentId) && TextIs(o, KProjectId, r.projectId)
    ensures TextIs(o, KCloneUrl, r.cloneUrl) && TextIs(o, KCommitSha, r.commitSha) && TextIs(o, KRequestedRef, r.requestedRef)
    ensures TextIs(o, KTrigger, r.trigger) && TextIs(o, KCorrelationId, r.correlationId)
  {
    hide DecodeField, TextIs, DecodeObject, Decodable;
    MemberIs(o, r, KEventId);
    MemberIs(o, r, KDeploymentId);
    MemberIs(o, r, KProjectId);
    MemberIs(o, r, KCloneUrl);
    MemberIs(o, r, KCommitSha);
    MemberIs(o, r, KRequestedRef);
    MemberIs(o, r, KTrigger);
    MemberIs(o, r, KCorrelationId);
  }

  lemma NumbersAre(o: map<Key, Json>, r: BuildRequest)
    requires DecodeObject(o) == Some(r)
    ensures NumberIs(o, KVersion, r.version) && NumberIs(o, KInstallationId, r.installationId)
    ensures NumberIs(o, KRepositoryId, r.repositoryId) && NumberIs(o, KGeneration, r.generation)
    ensures NumberIs(o, KRetryCount, r.retryCount) && ConfigurationIs(o, r.configuration)
  {
    hide DecodeField, NumberIs, ConfigurationIs, DecodeObject, Decodable;
    MemberIs(o, r, KVersion);
    MemberIs(o, r, KInstallationId);
    MemberIs(o, r, KRepositoryId);
    MemberIs(o, r, KGeneration);
    MemberIs(o, r, KRetryCount);
    MemberIs(o, r, KConfiguration);
  }

  lemma MemberIs(o: map<Key, Json>, r: BuildRequest, key: Key)
    requires DecodeObject(o) == Some(r) && RequestKey(key)
    ensures match FieldOf(r, key)
            case VText(s) => TextIs(o, key, s)
            case VNumber(n) => NumberIs(o, key, n)
            case VConfiguration(c) => ConfigurationIs(o, c)
  {
    hide DecodeField, TextIs, NumberIs, ConfigurationIs, DecodeObject, Decodable;
    DecodedFields(o, key);
    FieldExactly(o, r, key);
  }

  // The members of a configuration and of a request as the contract names them.
  function ConfigurationMembers(c: Configuration): map<Key, Json> {
    map[KExecutable := JString(c.executable), KArgs := if c.args.None? then JNull else JArray(EncodeStrings(c.args.value)),
        KWorkingDir := JString(c.workingDir), KScannerPolicyVersion := JString(c.scannerPolicyVersion)]
  }

  function Members(b: BuildRequest): map<Key, Json> {
    map[KVersion := JInt(b.version as int), KEventId := JString(b.eventId), KDeploymentId := JString(b.deploymentId),
        KProjectId := JString(b.projectId), KInstallationId := JInt(b.installationId as int),
        KRepositoryId := JInt(b.repositoryId as int), KCloneUrl := JString(b.cloneUrl), KCommitSha := JString(b.commitSha),
        KTrigger := JString(b.trigger), KGeneration := JInt(b.generation as int), KRetryCount := JInt(b.retryCount as int),
        KCorrelationId := JString(b.correlationId), KConfiguration := JObject(ConfigurationMembers(b.configuration), map[])]
  }

  /** What is written: every field under its own name, requested_ref only when there is one, and nothing else. */
  lemma EncodedExactly(b: BuildRequest)
    ensures Encode(b) == JObject(if b.requestedRef == "" then Members(b) else Members(b)[KRequestedRef := JString(b.requestedRef)], map[])
  {
    var members := if b.requestedRef == "" then Members(b) else Members(b)[KRequestedRef := JString(b.requestedRef)];
    MembersWritten(b);
    forall key: Key | key in Members(b) ensures Encode(b).fields[key] == Members(b)[key] {
      MemberWritten(b, key);
    }
    hide Members;
    assert Encode(b).fields == members;
  }

  lemma MembersWritten(b: BuildRequest)
    ensures forall key: Key :: key in Members(b) <==> RequestKey(key) && key != KRequestedRef
    ensures Encode(b).others == map[]
    ensures forall key: Key :: key in Encode(b).fields <==> RequestKey(key) && !(key == KRequestedRef && b.requestedRef == "")
    ensures b.requestedRef != "" ==> Encode(b).fields[KRequestedRef] == JString(b.requestedRef)
  {
    hide EncodeConfiguration, ConfigurationMembers;
  }

  lemma MemberWritten(b: BuildRequest, key: Key)
    requires key in Members(b)
    ensures key in Encode(b).fields && Encode(b).fields[key] == Members(b)[key]
  {
    ConfigurationWritten(b.configuration);
    hide EncodeConfiguration, ConfigurationMembers;
  }

  lemma ConfigurationWritten(c: Configuration)
    ensures EncodeConfiguration(c) == JObject(ConfigurationMembers(c), map[])
  {}

  // ---------- The AMQP envelope ----------

  // The one header the contract reads, and every other.
  datatype Header = XContractVersion | OtherHeader(name: string)

  datatype HeaderValue = HNil | HInt32(n: int) | HOther

  datatype Envelope = Envelope(
    contentType: string,
    messageId: string,
    correlationId: string,
    headers: Option<map<Header, HeaderValue>>,
    body: Body)

  function ValidateMetadata(req: BuildRequest, m: Envelope): Option<Error> {
    if m.contentType != CONTENT_TYPE_JSON then Some(BadContentType)
    else if m.messageId != "" && m.messageId != req.eventId then Some(MessageIdMismatch)
    else if m.correlationId != "" && m.correlationId != req.correlationId then Some(CorrelationIdMismatch)
    else if m.headers.Some? && XContractVersion in m.headers.value then
      match m.headers.value[XContractVersion]
      case HNil => None
      case HInt32(n) => if n == VERSION_V1 as int then None else Some(BadHeader)
      case HOther => Some(BadHeader)
    else None
  }

  function Publishing(req: BuildRequest): Result<Envelope, Error> {
    if Validate(req).Some? then Err(Validate(req).value)
    else Ok(Envelope(CONTENT_TYPE_JSON, req.eventId, req.correlationId,
                     Some(map[XContractVersion := HInt32(VERSION_V1 as int)]), Doc(Encode(req))))
  }

  /** What the worker loop does with a delivery before it looks at the job. */
  function Receive(m: Envelope): Result<BuildRequest, Error> {
    match DecodeV1(m.body)
    case Err(e) => Err(e)
    case Ok(req) => if ValidateMetadata(req, m).Some? then Err(ValidateMetadata(req, m).value) else Ok(req)
  }

  /** A published request is received as itself; only valid requests are published. */
  lemma PublishedIsReceived(req: BuildRequest)
    ensures Publishing(req).Ok? <==> Valid(req)
    ensures Publishing(req).Ok? ==> Receive(Publishing(req).value) == Ok(req)
  {
    hide Validate, Unmarshal, Encode;
    RoundTrip(req);
  }

  /** The envelope is refused for the first of its parts that contradicts the body; a header that is nil says nothing. */
  lemma MetadataExactly(req: BuildRequest, m: Envelope)
    ensures var e := ValidateMetadata(req, m);
            var json := m.contentType == "application/json";
            var id := m.messageId in {"", req.eventId};
            var correlation := m.correlationId in {"", req.correlationId};
            var header := m.headers.Some? && XContractVersion in m.headers.value ==> m.headers.value[XContractVersion] in {HNil, HInt32(1)};
            && (e.None? <==> json && id && correlation && header)
            && (e == Some(BadContentType) <==> !json)
            && (e == Some(MessageIdMismatch) <==> json && !id)
            && (e == Some(CorrelationIdMismatch) <==> json && id && !correlation)
            && (e == Some(BadHeader) <==> json && id && correlation && !header)
  {}

  // The envelope says nothing else than that of the published request, where it says anything.
  predicate Agrees(m: Envelope, p: Envelope) {
    && m.contentType == p.contentType
    && (m.messageId == "" || m.messageId == p.messageId)
    && (m.correlationId == "" || m.correlationId == p.correlationId)
    && (m.headers.Some? && XContractVersion in m.headers.value && m.headers.value[XContractVersion] != HNil ==>
          p.headers.Some? && XContractVersion in p.headers.value
          && m.headers.value[XContractVersion] == p.headers.value[XContractVersion])
  }

  /** The consumer accepts exactly the bodies it can decode in envelopes that agree with the producer's. */
  lemma AcceptedAgreesWithPublished(m: Envelope, req: BuildRequest)
    ensures Receive(m) == Ok(req) <==>
              DecodeV1(m.body) == Ok(req) && Publishing(req).Ok? && Agrees(m, Publishing(req).value)
  {
    hide Unmarshal, Encode, Validate;
  }

  /** Whatever is received is valid, so it can be published again. */
  lemma ReceivedIsValid(m: Envelope)
    requires Receive(m).Ok?
    ensures Valid(Receive(m).value)
  {}

  // ---------- Retries ----------

  /** The request the worker republishes after a failed attempt. */
  function Retry(req: BuildRequest): BuildRequest {
    req.(retryCount := Increment(req.retryCount))
  }

  /** The job a message stands for: its request, whatever the attempt. */
  function JobOf(req: BuildRequest): BuildRequest {
    req.(retryCount := 0)
  }

  /**
   A retry stays publishable and keeps the accepted body, except at the one
   counter value where the increment wraps below zero.
   */
  lemma RetryStaysPublishable(req: BuildRequest)
    requires Valid(req)
    ensures JobOf(Retry(req)) == JobOf(req)
    ensures Publishing(Retry(req)).Ok? <==> req.retryCount as int != MAX_INT64
    ensures req.retryCount as int != MAX_INT64 ==>
              Receive(Publishing(Retry(req)).value) == Ok(Retry(req))
              && Retry(req).retryCount as int == req.retryCount as int + 1
  {
    var next := Retry(req);
    assert Valid(next) <==> req.retryCount as int != MAX_INT64 by { RetryValidity(req); }
    PublishedIsReceived(next);
  }

  lemma RetryValidity(req: BuildRequest)
    requires Valid(req)
    ensures Valid(Retry(req)) <==> req.retryCount as int != MAX_INT64
  {}

  // ---------- The schema ----------

  predicate ConfigurationKey(key: Key) {
    key.KExecutable? || key.KArgs? || key.KWorkingDir? || key.KScannerPolicyVersion?
  }

  const GITHUB_PREFIX := "https://github.com/"

  ghost predicate SchemaInteger(j: Json, least: int) {
    (j.JInt? && least <= j.n) || (j.JFloat? && j.r == j.r.Floor as real && least <= j.r.Floor)
  }

  predicate NonEmptyString(j: Json) { j.JString? && j.s != "" }

  // .+ after the prefix: at least one character, and the dot matches no line end.
  predicate LineEnd(c: char) { c == '\n' || c == '\r' || c == '\U{2028}' || c == '\U{2029}' }

  predicate GithubUrl(s: string) {
    GITHUB_PREFIX < s && !LineEnd(s[|GITHUB_PREFIX|])
  }

  ghost predicate SchemaConfiguration(j: Json) {
    && j.JObject?
    && j.others == map[]
    && (forall k :: k in j.fields <==> ConfigurationKey(k))
    && NonEmptyString(j.fields[KExecutable])
    && NonEmptyString(j.fields[KWorkingDir])
    && NonEmptyString(j.fields[KScannerPolicyVersion])
    && j.fields[KArgs].JArray?
    && forall e | e in j.fields[KArgs].elems :: e.JString?
  }

  // The schema's demands on one property; none of them but requested_ref may
  // be null, so a missing property reads as null here as well.
  ghost predicate SchemaField(key: Key, f: Json) {
    match key
    case KVersion => f == JInt(1) || f == JFloat(1.0)
    case KInstallationId => SchemaInteger(f, 1)
    case KRepositoryId => SchemaInteger(f, 1)
    case KGeneration => SchemaInteger(f, 0)
    case KRetryCount => SchemaInteger(f, 0)
    case KCloneUrl => f.JString? && GithubUrl(f.s)
    case KCommitSha => f.JString? && CommitSha(f.s)
    case KRequestedRef => f.JString? || f.JNull?
    case KTrigger => f == JString(TRIGGER_MANUAL) || f == JString(TRIGGER_WEBHOOK_PUSH)
    case KConfiguration => SchemaConfiguration(f)
    case _ => NonEmptyString(f)
  }

  /** The document satisfies deploy-jobs-v1.schema.json. */
  ghost predicate SchemaValid(j: Json) {
    && j.JObject?
    && j.others == map[]
    && (forall key | key in j.fields :: RequestKey(key))
    && (forall key | RequestKey(key) :: SchemaField(key, Field(j.fields, key)))
  }

  // The Go side's demands on one field.
  predicate ValidValue(key: Key, v: Value) {
    if key.KRequestedRef? then true
    else if key.KCommitSha? then v.VText? && CommitSha(v.s)
    else if key.KTrigger? then v == VText(TRIGGER_MANUAL) || v == VText(TRIGGER_WEBHOOK_PUSH)
    else if key.KVersion? then v == VNumber(VERSION_V1)
    else if key.KInstallationId? || key.KRepositoryId? then v.VNumber? && v.n > 0
    else if key.KGeneration? || key.KRetryCount? then v.VNumber? && v.n >= 0
    else if key.KConfiguration? then v.VConfiguration? && ValidConfiguration(v.c)
    else v.VText? && v.s != ""
  }

  predicate ValidConfiguration(c: Configuration) {
    c.executable != "" && c.args.Some? && c.workingDir != "" && c.scannerPolicyVersion != ""
  }

  predicate AcceptedField(key: Key, f: Json) {
    DecodeField(key, f).Some? && ValidValue(key, DecodeField(key, f).value)
  }

  // The field an error of Validate is about.
  function Blamed(e: Error): Key {
    match e
    case UnsupportedVersion => KVersion
    case Missing(key) => if RequestKey(key) then key else KConfiguration
    case BadCommitSha => KCommitSha
    case BadTrigger => KTrigger
    case NegativeGeneration => KGeneration
    case _ => KRetryCount
  }

  /** The switch rejects exactly the requests with some unacceptable field, and names one. */
  lemma ValidFieldByField(b: BuildRequest)
    ensures Valid(b) <==> forall key | RequestKey(key) :: ValidValue(key, FieldOf(b, key))
    ensures !Valid(b) ==> RequestKey(Blamed(Validate(b).value))
                          && !ValidValue(Blamed(Validate(b).value), FieldOf(b, Blamed(Validate(b).value)))
  {
    if !Valid(b) {
      var key := Blamed(Validate(b).value);
      assert RequestKey(key) && !ValidValue(key, FieldOf(b, key));
    }
  }

  // Where the switch has the case that reports an error.
  function Position(e: Error): nat {
    match e
    case UnsupportedVersion => 0
    case Missing(KEventId) => 1
    case Missing(KDeploymentId) => 2
    case Missing(KProjectId) => 3
    case Missing(KInstallationId) => 4
    case Missing(KRepositoryId) => 5
    case Missing(KCloneUrl) => 6
    case BadCommitSha => 7
    case BadTrigger => 8
    case NegativeGeneration => 9
    case NegativeRetryCount => 10
    case Missing(KCorrelationId) => 11
    case Missing(KExecutable) => 12
    case Missing(KArgs) => 13
    case Missing(KWorkingDir) => 14
    case Missing(KScannerPolicyVersion) => 15
    case _ => 16
  }

  // What is demanded there.
  predicate Demand(b: BuildRequest, n: nat) {
    match n
    case 0 => b.version == 1
    case 1 => b.eventId != ""
    case 2 => b.deploymentId != ""
    case 3 => b.projectId != ""
    case 4 => b.installationId > 0
    case 5 => b.repositoryId > 0
    case 6 => b.cloneUrl != ""
    case 7 => CommitSha(b.commitSha)
    case 8 => b.trigger == "manual" || b.trigger == "webhook_push"
    case 9 => b.generation >= 0
    case 10 => b.retryCount >= 0
    case 11 => b.correlationId != ""
    case 12 => b.configuration.executable != ""
    case 13 => b.configuration.args.Some?
    case 14 => b.configuration.workingDir != ""
    case 15 => b.configuration.scannerPolicyVersion != ""
    case _ => true
  }

  lemma DemandIsMet(b: BuildRequest, n: nat)
    ensures Validate(b).None? || n < Position(Validate(b).value) ==> Demand(b, n)
    ensures Validate(b).Some? && n == Position(Validate(b).value) ==> !Demand(b, n)
  {
    hide CommitSha;
  }

  /** The error that is reported is that of the first demand that is not met. */
  lemma FirstFailureReported(b: BuildRequest)
    ensures match Validate(b)
            case None => forall n :: Demand(b, n)
            case Some(e) => !Demand(b, Position(e)) && forall n | 0 <= n < Position(e) :: Demand(b, n)
  {
    hide Validate, Demand, Position;
    forall n: nat ensures Validate(b).None? || n < Position(Validate(b).value) ==> Demand(b, n) {
      DemandIsMet(b, n);
    }
    if Validate(b).Some? {
      DemandIsMet(b, Position(Validate(b).value));
    }
  }

  /** Decoding and validating accepts an object exactly when each field is acceptable by itself. */
  lemma AcceptedFieldByField(j: Json)
    requires j.JObject?
    ensures DecodeV1(Doc(j)).Ok? <==> forall key | RequestKey(key) :: AcceptedField(key, Field(j.fields, key))
  {
    hide Validate, DecodeObject;
    if Decodable(j.fields) {
      DecodedIsValidFieldByField(j.fields);
    }
  }

  lemma DecodedIsValidFieldByField(o: map<Key, Json>)
    requires Decodable(o)
    ensures Valid(DecodeObject(o).value) <==> forall key | RequestKey(key) :: AcceptedField(key, Field(o, key))
  {
    var b := DecodeObject(o).value;
    ValidFieldByField(b);
    forall key | RequestKey(key) ensures ValidValue(key, FieldOf(b, key)) <==> AcceptedField(key, Field(o, key)) {
      DecodedFields(o, key);
    }
  }

  // An integer, when written at all, is written the way Go can store it.
  predicate PlainInteger(f: Json) {
    !f.JFloat? && (f.JInt? ==> MIN_INT64 <= f.n <= MAX_INT64)
  }

  ghost predicate PlainIntegers(j: Json) {
    j.JObject? ==> forall key | NumberKey(key) :: PlainInteger(Field(j.fields, key))
  }

  // What the schema demands of a property and the Go decoder does not look at.
  ghost predicate StrictField(key: Key, f: Json) {
    match key
    case KGeneration => f.JInt?
    case KRetryCount => f.JInt?
    case KCloneUrl => f.JString? && GithubUrl(f.s)
    case KConfiguration =>
      && f.JObject?
      && f.others == map[]
      && (forall k | k in f.fields :: ConfigurationKey(k))
      && Field(f.fields, KArgs).JArray?
      && (forall e | e in Field(f.fields, KArgs).elems :: e.JString?)
    case _ => true
  }

  ghost predicate Strict(j: Json) {
    && j.JObject?
    && j.others == map[]
    && (forall key | key in j.fields :: RequestKey(key))
    && (forall key | RequestKey(key) :: StrictField(key, Field(j.fields, key)))
  }

  // With plain integers the two differ in the listed liberties only.
  lemma PlainAgreement(j: Json)
    requires PlainIntegers(j)
    ensures SchemaValid(j) <==> DecodeV1(Doc(j)).Ok? && Strict(j)
  {
    if j.JObject? {
      AcceptedFieldByField(j);
      forall key | RequestKey(key)
        ensures var f := Field(j.fields, key);
                SchemaField(key, f) <==> AcceptedField(key, f) && StrictField(key, f)
      {
        FieldAgreement(key, Field(j.fields, key));
      }
    }
  }

  lemma AcceptedIsPlain(j: Json)
    requires DecodeV1(Doc(j)).Ok?
    ensures PlainIntegers(j)
  {
    hide DecodeV1, AcceptedField, PlainInteger;
    if j.JObject? {
      AcceptedFieldByField(j);
      forall key | NumberKey(key) ensures PlainInteger(Field(j.fields, key)) {
        NumberIsPlain(key, Field(j.fields, key));
      }
    }
  }

  lemma NumberIsPlain(key: Key, f: Json)
    requires NumberKey(key) && AcceptedField(key, f)
    ensures PlainInteger(f)
  {
    hide ValidValue;
  }

  /**
   How far the Go validator mirrors the schema, for every document: what it
   accepts of the strict documents is what the schema accepts of those whose
   integers are plain 64-bit literals.
   */
  lemma SchemaAgreement(j: Json)
    ensures DecodeV1(Doc(j)).Ok? && Strict(j) <==> SchemaValid(j) && PlainIntegers(j)
  {
    hide SchemaValid, Strict, PlainIntegers, Unmarshal, Validate;
    if PlainIntegers(j) {
      PlainAgreement(j);
    } else if DecodeV1(Doc(j)).Ok? {
      AcceptedIsPlain(j);
    }
  }

  /** A request whose clone url is not on GitHub is accepted, and refused by the schema. */
  lemma ForeignUrlAccepted(b: BuildRequest)
    requires Valid(b) && !GithubUrl(b.cloneUrl)
    ensures DecodeV1(Doc(Encode(b))) == Ok(b) && !SchemaValid(Encode(b))
  {
    hide Unmarshal, GithubUrl, Validate, SchemaConfiguration;
    RoundTrip(b);
    EncodedUrl(b);
    hide Encode;
    assert RequestKey(KCloneUrl) && !SchemaField(KCloneUrl, Field(Encode(b).fields, KCloneUrl));
  }

  lemma EncodedUrl(b: BuildRequest)
    ensures Field(Encode(b).fields, KCloneUrl) == JString(b.cloneUrl)
  {}

  /** A count that is written 1.0 satisfies the schema as much as 1 does, and is refused. */
  lemma FractionRefused(o: map<Key, Json>, others: map<string, Json>)
    requires SchemaValid(JObject(o, others))
    ensures var written := JObject(o[KRetryCount := JFloat(1.0)], others); SchemaValid(written) && DecodeV1(Doc(written)).Err?
  {
    var o' := o[KRetryCount := JFloat(1.0)];
    hide SchemaConfiguration, GithubUrl, CommitSha;
    forall key | RequestKey(key) ensures SchemaField(key, Field(o', key)) {
      assert SchemaField(key, Field(o, key));
    }
    hide SchemaField;
    assert DecodeField(KRetryCount, Field(o', KRetryCount)).None?;
    assert !Decodable(o') by { assert RequestKey(KRetryCount); }
  }

  lemma FieldAgreement(key: Key, f: Json)
    requires RequestKey(key)
    requires NumberKey(key) ==> PlainInteger(f)
    ensures SchemaField(key, f) <==> AcceptedField(key, f) && StrictField(key, f)
  {}
}
