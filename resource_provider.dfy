/**
 * The custom-resource provider base: one request, the response built for
 * it, and the operations every provider shares (resetting the state for a
 * request, the accessors, `success`/`fail`, the three validation checks,
 * delivery), plus the two string helpers `is_int` and the heuristic
 * property-type conversion.
 */
module ResourceProvider {
  import opened Wrappers
  import opened PyStrings
  import opened Json
  import opened DefaultInjectingValidator
  import opened Remote

  // ---------------------------------------------------------------------
  // is_int and the heuristic property-type conversion

  /** `is_int(s)`: an optional leading sign, then the rest must satisfy `isdigit`. */
  predicate IsInt(s: string) {
    if |s| > 0 && (s[0] == '-' || s[0] == '+') then IsDigits(s[1..]) else IsDigits(s)
  }

  /** `is_int` accepts exactly the non-empty digit strings, with at most one sign in front of at least one digit. */
  lemma IsIntExactly(s: string)
    ensures IsInt(s) <==> IsDigits(s) || (|s| >= 2 && (s[0] == '-' || s[0] == '+') && AllDigits(s[1..]))
  {
  }

  lemma IsIntExamples()
    ensures !IsInt("") && !IsInt("-") && !IsInt("+") && !IsInt("1.0") && !IsInt("--1") && !IsInt("1-")
    ensures IsInt("0") && IsInt("-12") && IsInt("+7") && IsInt("007")
  {
    assert "1.0"[1] == '.';
    assert "--1"[1..][0] == '-';
    assert "1-"[1] == '-';
    assert IsDigits("12");
  }

  /** `int(s)` for a string that `is_int` accepts. */
  function IntValue(s: string): int
    requires IsInt(s)
  {
    if s[0] == '-' then -(DigitsValue(s[1..]) as int)
    else if s[0] == '+' then DigitsValue(s[1..])
    else DigitsValue(s)
  }

  /** Every printed integer is accepted by `is_int`, and `int` reads it back as the same integer. */
  lemma {:induction false} IntRoundTrip(i: int)
    ensures IsInt(IntToString(i)) && IntValue(IntToString(i)) == i
  {
    if i < 0 {
      NatToStringRoundTrip(-i);
      var s := "-" + NatToString(-i);
      assert s[1..] == NatToString(-i);
    } else {
      NatToStringRoundTrip(i);
      assert IsDigit(NatToString(i)[0]);
    }
  }

  /** The conversion of one string value. */
  function ConvertString(s: string): Json {
    if s == "true" then JBool(true)
    else if s == "false" then JBool(false)
    else if IsInt(s) then JInt(IntValue(s))
    else JStr(s)
  }

  /** The conversion of one value: strings are converted, dicts recursively, everything else is kept. */
  function ConvertValue(v: Json): Json
    decreases v, 1
  {
    match v
    case JStr(s) => ConvertString(s)
    case JObj(m) => JObj(Converted(m))
    case _ => v
  }

  /** `heuristic_convert_property_types` as a function of the dict it rewrites. */
  function Converted(properties: Object): (r: Object)
    decreases JObj(properties), 0
  {
    map name | name in properties :: ConvertValue(properties[name])
  }

  /**
   * `heuristic_convert_property_types(properties)`: the loop over the names,
   * rewriting string values and recursing into nested dicts.
   */
  method HeuristicConvertPropertyTypes(properties: Object) returns (converted: Object)
    ensures converted == Converted(properties)
    decreases JObj(properties)
  {
    converted := properties;
    var todo := properties.Keys;
    while todo != {}
      invariant todo <= properties.Keys && converted.Keys == properties.Keys
      invariant forall name :: name in properties && name !in todo ==> converted[name] == ConvertValue(properties[name])
      invariant forall name :: name in todo ==> converted[name] == properties[name]
    {
      var name :| name in todo;
      match properties[name] {
        case JObj(nested) =>
          var c := HeuristicConvertPropertyTypes(nested);
          converted := converted[name := JObj(c)];
        case JStr(s) =>
          converted := converted[name := ConvertString(s)];
        case _ =>
      }
      todo := todo - {name};
    }
  }

  /** What the conversion does to each value: the key set is kept and each value is converted on its own. */
  lemma ConvertedValue(properties: Object, name: string)
    requires name in properties
    ensures Converted(properties).Keys == properties.Keys
    ensures properties[name] == JStr("true") ==> Converted(properties)[name] == JBool(true)
    ensures properties[name] == JStr("false") ==> Converted(properties)[name] == JBool(false)
    ensures properties[name].JStr? && properties[name].s != "true" && properties[name].s != "false" ==>
      Converted(properties)[name] ==
        if IsInt(properties[name].s) then JInt(IntValue(properties[name].s)) else properties[name]
    ensures properties[name].JObj? ==> Converted(properties)[name] == JObj(Converted(properties[name].fields))
    ensures !properties[name].JStr? && !properties[name].JObj? ==> Converted(properties)[name] == properties[name]
  {
  }

  /** Converting twice changes nothing more: every string left after one pass is one the conversion keeps. */
  lemma {:induction false} ConvertIdempotent(properties: Object)
    ensures Converted(Converted(properties)) == Converted(properties)
    decreases JObj(properties), 0
  {
    forall name | name in properties
      ensures ConvertValue(ConvertValue(properties[name])) == ConvertValue(properties[name])
    {
      ConvertValueIdempotent(properties[name]);
    }
  }

  lemma {:induction false} ConvertValueIdempotent(v: Json)
    ensures ConvertValue(ConvertValue(v)) == ConvertValue(v)
    decreases v, 1
  {
    match v
    case JObj(m) => ConvertIdempotent(m);
    case _ =>
  }

  // ---------------------------------------------------------------------
  // The fixed CloudFormation request and response schemas

  function StringProperty(name: string): PropertySchema {
    PropertySchema(name, Some(StringType), None, None, None)
  }

  const CfnRequestSchema: Schema :=
    Schema(
      ["RequestType", "ResponseURL", "StackId", "RequestId", "ResourceType", "LogicalResourceId", "ResourceProperties"],
      [ PropertySchema("RequestType", Some(StringType), Some([JStr("Create"), JStr("Update"), JStr("Delete")]), None, None),
        PropertySchema("ResponseURL", Some(StringType), None, Some(HttpUrl), None),
        StringProperty("StackId"),
        StringProperty("RequestId"),
        StringProperty("ResourceType"),
        StringProperty("LogicalResourceId"),
        StringProperty("PhysicalResourceId"),
        PropertySchema("ResourceProperties", Some(ObjectType), None, None, None)])

  const CfnResponseSchema: Schema :=
    Schema(
      ["Status", "Reason", "RequestId", "StackId", "LogicalResourceId", "Data"],
      [ PropertySchema("Status", Some(StringType), Some([JStr("SUCCESS"), JStr("FAILED")]), None, None),
        StringProperty("StackId"),
        StringProperty("RequestId"),
        StringProperty("LogicalResourceId"),
        StringProperty("PhysicalResourceId"),
        PropertySchema("Data", Some(ObjectType), None, None, None)])

  /** The reason of a request that fails the request schema: `str(e.context)` of a top-level error is `[]`. */
  const InvalidCfnRequestReason: string := "invalid CloudFormation Request received: []"

  /** A request the request schema accepts has somewhere to put its response. */
  lemma HasResponseUrl(request: Object)
    requires Check(request, CfnRequestSchema).None?
    ensures "ResponseURL" in request
  {
    ValidCfnRequestShape(request);
  }

  /** A request that passes the CloudFormation request schema has the shape the rest of the provider reads. */
  lemma ValidCfnRequestShape(request: Object)
    requires Check(request, CfnRequestSchema).None?
    ensures "RequestType" in request && request["RequestType"] in [JStr("Create"), JStr("Update"), JStr("Delete")]
    ensures "ResourceType" in request && request["ResourceType"].JStr?
    ensures "ResourceProperties" in request && request["ResourceProperties"].JObj?
    ensures "StackId" in request && request["StackId"].JStr?
    ensures "RequestId" in request && request["RequestId"].JStr?
    ensures "LogicalResourceId" in request && request["LogicalResourceId"].JStr?
    ensures "PhysicalResourceId" in request ==> request["PhysicalResourceId"].JStr?
    ensures "ResponseURL" in request && request["ResponseURL"].JStr?
    ensures StartsWith(request["ResponseURL"].s, "http://") || StartsWith(request["ResponseURL"].s, "https://")
  {
    var ps := CfnRequestSchema.properties;
    assert ps[0] in ps && ps[1] in ps && ps[2] in ps && ps[3] in ps && ps[4] in ps;
    assert ps[5] in ps && ps[6] in ps && ps[7] in ps;
  }

  /** `is_valid_cfn_response`: the response satisfies the CloudFormation response schema. */
  predicate IsValidCfnResponse(response: Object) {
    Check(response, CfnResponseSchema).None?
  }

  /** The response fields the response schema states. */
  predicate ResponseFieldsValid(response: Object) {
    && "Status" in response && response["Status"] in [JStr("SUCCESS"), JStr("FAILED")]
    && "Reason" in response
    && "StackId" in response && response["StackId"].JStr?
    && "RequestId" in response && response["RequestId"].JStr?
    && "LogicalResourceId" in response && response["LogicalResourceId"].JStr?
    && "Data" in response && response["Data"].JObj?
    && ("PhysicalResourceId" in response ==> response["PhysicalResourceId"].JStr?)
  }

  /** A response the schema accepts has the required fields with the declared types. */
  lemma ValidCfnResponseFields(response: Object)
    requires IsValidCfnResponse(response)
    ensures ResponseFieldsValid(response)
  {
    var rs := CfnResponseSchema.required;
    var ps := CfnResponseSchema.properties;
    assert Conforms(response, CfnResponseSchema);
    assert rs[0] in rs && rs[1] in rs && rs[2] in rs && rs[3] in rs && rs[4] in rs && rs[5] in rs;
    assert Satisfies(ps[0], response["Status"]);
    assert Satisfies(ps[1], response["StackId"]);
    assert Satisfies(ps[2], response["RequestId"]);
    assert Satisfies(ps[3], response["LogicalResourceId"]);
    assert "PhysicalResourceId" in response ==> Satisfies(ps[4], response["PhysicalResourceId"]);
    assert Satisfies(ps[5], response["Data"]);
  }

  /** A response with the required fields and the declared types is accepted by the schema. */
  lemma CfnResponseFieldsValid(response: Object)
    requires ResponseFieldsValid(response)
    ensures IsValidCfnResponse(response)
  {
    var ps := CfnResponseSchema.properties;
    forall p | p in ps && p.name in response
      ensures Satisfies(p, response[p.name])
    {
      assert p == ps[0] || p == ps[1] || p == ps[2] || p == ps[3] || p == ps[4] || p == ps[5];
    }
  }

  // ---------------------------------------------------------------------
  // Provider identity

  /** Which concrete provider an instance is. */
  datatype ProviderKind = CertificateKind | DnsRecordKind | IssuedCertificateKind

  /** `custom_cfn_resource_name`: "Custom::" and the class name with "Provider" removed. */
  function CustomCfnResourceName(className: string): string {
    "Custom::" + ReplaceAll(className, "Provider", "")
  }

  /** A class name ending in "Provider", with no other "P", names the resource type of what comes before. */
  lemma ProviderTypeName(className: string, stem: string)
    requires 'P' !in stem && className == stem + "Provider"
    ensures CustomCfnResourceName(className) == "Custom::" + stem
  {
    ReplaceAllKeepsPrefix(stem, "Provider", "", "Provider");
    ReplaceAllAtFront("Provider", "", "");
    assert "Provider" + [] == "Provider";
  }

  /** The spelling facts about `CertificateProvider` that ProviderTypeName needs. */
  lemma CertificateSpelling(className: string)
    requires className == "CertificateProvider"
    ensures 'P' !in "Certificate" && className == "Certificate" + "Provider"
    ensures "Custom::" + "Certificate" == "Custom::Certificate"
  {
  }

  lemma CertificateTypeName(className: string)
    requires className == "CertificateProvider"
    ensures CustomCfnResourceName(className) == "Custom::Certificate"
  {
    CertificateSpelling(className);
    ProviderTypeName(className, "Certificate");
  }

  /** The spelling facts about `CertificateDNSRecordProvider` that ProviderTypeName needs. */
  lemma DnsRecordSpelling(className: string)
    requires className == "CertificateDNSRecordProvider"
    ensures 'P' !in "CertificateDNSRecord" && className == "CertificateDNSRecord" + "Provider"
    ensures "Custom::" + "CertificateDNSRecord" == "Custom::CertificateDNSRecord"
  {
  }

  lemma DnsRecordTypeName(className: string)
    requires className == "CertificateDNSRecordProvider"
    ensures CustomCfnResourceName(className) == "Custom::CertificateDNSRecord"
  {
    DnsRecordSpelling(className);
    ProviderTypeName(className, "CertificateDNSRecord");
  }

  /** The spelling facts about `IssuedCertificateProvider` that ProviderTypeName needs. */
  lemma IssuedCertificateSpelling(className: string)
    requires className == "IssuedCertificateProvider"
    ensures 'P' !in "IssuedCertificate" && className == "IssuedCertificate" + "Provider"
    ensures "Custom::" + "IssuedCertificate" == "Custom::IssuedCertificate"
  {
  }

  lemma IssuedCertificateTypeName(className: string)
    requires className == "IssuedCertificateProvider"
    ensures CustomCfnResourceName(className) == "Custom::IssuedCertificate"
  {
    IssuedCertificateSpelling(className);
    ProviderTypeName(className, "IssuedCertificate");
  }

  /** The reason `is_supported_request` fails with. */
  function UnsupportedReason(resourceType: Json, supported: string): string {
    "ResourceType " + Str(resourceType) + NotSupportedBy + supported
  }

  const NotSupportedBy: string := " not supported by provider "

  /** The fixed start of the reason `is_valid_request` fails with. */
  const InvalidPropertiesPrefix: string := "invalid resource properties: "

  // ---------------------------------------------------------------------
  // Provider state

  /** How a lifecycle hook ended: normally, by raising an exception other than the ones it handles, or cut off by the invocation's time limit. */
  datatype Outcome = Returned | Raised(message: string) | TimedOut

  /** The lifecycle hooks `execute` dispatches to. */
  datatype Hook = CreateHook | UpdateHook | DeleteHook

  /** What a lifecycle hook can change: the request, the response, the remote calls issued and the `asynchronous` flag. */
  datatype Snapshot = Snapshot(request: Object, response: Object, calls: seq<Call>, asynchronous: bool)

  /** The ResourceProperties of a request, empty when it has no dict there. */
  function PropertiesOf(request: Object): Object {
    if "ResourceProperties" in request && request["ResourceProperties"].JObj? then request["ResourceProperties"].fields else map[]
  }

  /** `request_type == t` */
  predicate IsType(request: Object, t: string) {
    "RequestType" in request && request["RequestType"] == JStr(t)
  }

  /** The fields every response keeps once the request is set. */
  predicate WellFormed(response: Object) {
    && "Status" in response && (response["Status"] == JStr("SUCCESS") || response["Status"] == JStr("FAILED"))
    && "Reason" in response && response["Reason"].JStr?
    && "Data" in response && response["Data"].JObj?
  }

  predicate HasIds(request: Object) {
    "StackId" in request && "RequestId" in request && "LogicalResourceId" in request
  }

  /** The response `set_request` starts from. */
  function InitialResponse(request: Object): (r: Object)
    requires HasIds(request)
    ensures WellFormed(r)
    ensures r["Status"] == JStr("SUCCESS") && r["Reason"] == JStr("") && r["Data"] == JObj(map[])
    ensures "StackId" in r && r["StackId"] == request["StackId"]
    ensures "RequestId" in r && r["RequestId"] == request["RequestId"]
    ensures "LogicalResourceId" in r && r["LogicalResourceId"] == request["LogicalResourceId"]
    ensures "PhysicalResourceId" in r <==> "PhysicalResourceId" in request
    ensures "PhysicalResourceId" in r ==> r["PhysicalResourceId"] == request["PhysicalResourceId"]
    ensures r.Keys <= {"Status", "Reason", "StackId", "RequestId", "LogicalResourceId", "Data", "PhysicalResourceId"}
  {
    var base := map[
      "Status" := JStr("SUCCESS"),
      "Reason" := JStr(""),
      "StackId" := request["StackId"],
      "RequestId" := request["RequestId"],
      "LogicalResourceId" := request["LogicalResourceId"],
      "Data" := JObj(map[])];
    if "PhysicalResourceId" in request then base["PhysicalResourceId" := request["PhysicalResourceId"]] else base
  }

  /** A request that passes the request schema yields a starting response that passes the response schema. */
  lemma InitialResponseIsValid(request: Object)
    requires Check(request, CfnRequestSchema).None?
    ensures HasIds(request) && IsValidCfnResponse(InitialResponse(request))
  {
    ValidCfnRequestShape(request);
    CfnResponseFieldsValid(InitialResponse(request));
  }

  /**
   * A provider: the request being handled, the response built for it, the
   * `asynchronous` flag that suppresses delivery, and, standing for the
   * world outside, the state-changing remote calls issued and the
   * responses delivered to the ResponseURL.
   */
  class Provider {
    const kind: ProviderKind
    const className: string
    const requestSchema: Schema

    var request: Object
    var response: Object
    var asynchronous: bool
    var calls: seq<Call>
    var sent: seq<Object>
    /** The lifecycle hooks run so far. */
    ghost var hooksRun: seq<Hook>

    constructor (kind: ProviderKind, className: string, requestSchema: Schema)
      ensures this.kind == kind && this.className == className && this.requestSchema == requestSchema
      ensures request == map[] && response == map[] && !asynchronous
      ensures calls == [] && sent == [] && hooksRun == []
    {
      this.kind := kind;
      this.className := className;
      this.requestSchema := requestSchema;
      request := map[];
      response := map[];
      asynchronous := false;
      calls := [];
      sent := [];
      hooksRun := [];
    }

    /** The fields a lifecycle hook can change, as one value. */
    function Current(): Snapshot
      reads this
    {
      Snapshot(request, response, calls, asynchronous)
    }

    /** The state `set_request` establishes and every operation keeps. */
    ghost predicate Valid()
      reads this
    {
      WellFormed(response) && HasIds(request)
    }

    function Status(): string
      reads this
      requires Valid()
    {
      response["Status"].s
    }

    function Reason(): string
      reads this
      requires Valid()
    {
      response["Reason"].s
    }

    function Data(): Object
      reads this
      requires Valid()
    {
      response["Data"].fields
    }

    /** `physical_resource_id`: the response's id, `None` when it has none. */
    function PhysicalResourceId(): (id: Json)
      reads this
      ensures "PhysicalResourceId" in response ==> id == response["PhysicalResourceId"]
      ensures "PhysicalResourceId" !in response ==> id == JNull
    {
      Lookup(response, "PhysicalResourceId", JNull)
    }

    /** `properties`: the request's ResourceProperties (the request schema makes it a dict before anything reads it). */
    function Properties(): (props: Object)
      reads this
      ensures "ResourceProperties" in request && request["ResourceProperties"].JObj? ==>
        props == request["ResourceProperties"].fields
    {
      PropertiesOf(request)
    }

    /** `old_properties`: OldResourceProperties, or an empty dict when the request has none. */
    function OldProperties(): (props: Object)
      reads this
      ensures "OldResourceProperties" !in request ==> props == map[]
      ensures "OldResourceProperties" in request && request["OldResourceProperties"].JObj? ==>
        props == request["OldResourceProperties"].fields
    {
      if "OldResourceProperties" in request && request["OldResourceProperties"].JObj? then
        request["OldResourceProperties"].fields
      else map[]
    }

    /** `get(name, default)` */
    function Get(name: string, default: Json): (v: Json)
      reads this
      ensures name in Properties() ==> v == Properties()[name]
      ensures name !in Properties() ==> v == default
    {
      Lookup(Properties(), name, default)
    }

    /** `get_old(name, default)` */
    function GetOld(name: string, default: Json): (v: Json)
      reads this
      ensures name in OldProperties() ==> v == OldProperties()[name]
      ensures name !in OldProperties() ==> v == default
    {
      Lookup(OldProperties(), name, default)
    }

    /** `get_attribute(name)`: the Data entry, `None` when there is none. */
    function GetAttribute(name: string): (v: Json)
      reads this
      requires Valid()
      ensures name in Data() ==> v == Data()[name]
      ensures name !in Data() ==> v == JNull
    {
      Lookup(Data(), name, JNull)
    }

    /** `request_type == t` */
    predicate IsRequestType(t: string)
      reads this
    {
      IsType(request, t)
    }

    function CustomResourceName(): string {
      CustomCfnResourceName(className)
    }

    /** `is_supported_resource_type` */
    predicate IsSupportedResourceType()
      reads this
    {
      "ResourceType" in request && request["ResourceType"] == JStr(CustomResourceName())
    }

    /** `set_request`: take the request and reset the response and the flag. */
    method SetRequest(req: Object)
      requires HasIds(req)
      modifies this`request, this`response, this`asynchronous
      ensures Valid()
      ensures request == req && response == InitialResponse(req) && !asynchronous
    {
      request := req;
      asynchronous := false;
      response := InitialResponse(req);
    }

    /** `success(reason)`: Status SUCCESS; the Reason is replaced only when one is given. */
    method Success(reason: Option<string>)
      requires Valid()
      modifies this`response
      ensures Valid()
      ensures response == if reason.Some? then old(response)["Status" := JStr("SUCCESS")]["Reason" := JStr(reason.value)]
                          else old(response)["Status" := JStr("SUCCESS")]
      ensures Status() == "SUCCESS" && Reason() == (if reason.Some? then reason.value else old(Reason()))
      ensures Data() == old(Data()) && PhysicalResourceId() == old(PhysicalResourceId())
    {
      response := response["Status" := JStr("SUCCESS")];
      if reason.Some? {
        response := response["Reason" := JStr(reason.value)];
      }
    }

    /** `fail(reason)`: Status FAILED with this Reason. */
    method Fail(reason: string)
      requires Valid()
      modifies this`response
      ensures Valid()
      ensures response == old(response)["Status" := JStr("FAILED")]["Reason" := JStr(reason)]
      ensures Status() == "FAILED" && Reason() == reason
      ensures Data() == old(Data()) && PhysicalResourceId() == old(PhysicalResourceId())
    {
      response := response["Status" := JStr("FAILED")]["Reason" := JStr(reason)];
    }

    /** `set_attribute(name, value)`: only `Data[name]` changes. */
    method SetAttribute(name: string, value: Json)
      requires Valid()
      modifies this`response
      ensures Valid()
      ensures response == old(response)["Data" := JObj(old(Data())[name := value])]
      ensures GetAttribute(name) == value
      ensures forall other :: other != name ==> GetAttribute(other) == old(GetAttribute(other))
    {
      response := response["Data" := JObj(Data()[name := value])];
    }

    /** Assigning `physical_resource_id`. */
    method SetPhysicalResourceId(id: Json)
      requires Valid()
      modifies this`response
      ensures Valid()
      ensures response == old(response)["PhysicalResourceId" := id]
    {
      response := response["PhysicalResourceId" := id];
    }

    /** Writing the request's ResourceProperties dict in place. */
    method SetProperties(props: Object)
      modifies this`request
      ensures request == old(request)["ResourceProperties" := JObj(props)]
    {
      request := request["ResourceProperties" := JObj(props)];
    }

    /** `is_valid_cfn_request`: the request schema check, failing the response when it does not hold. */
    method IsValidCfnRequest() returns (ok: bool)
      requires Valid()
      modifies this`response
      ensures Valid()
      ensures ok == Check(request, CfnRequestSchema).None?
      ensures response == if ok then old(response)
                          else old(response)["Status" := JStr("FAILED")]["Reason" := JStr(InvalidCfnRequestReason)]
    {
      ok := Check(request, CfnRequestSchema).None?;
      if !ok {
        Fail(InvalidCfnRequestReason);
      }
    }

    /**
     * `is_valid_request`: `convert_property_types` (a no-op in every provider
     * of this repository), then validation of ResourceProperties against the
     * provider's schema with default injection. The injected defaults stay in
     * the request whether or not validation then fails.
     */
    method IsValidRequest() returns (ok: bool)
      requires Valid()
      requires "ResourceProperties" in request && request["ResourceProperties"].JObj?
      modifies this`request, this`response
      ensures Valid()
      ensures var v := Validation(old(Properties()), requestSchema);
        && request == old(request)["ResourceProperties" := JObj(v.0)]
        && ok == v.1.None?
        && response == if ok then old(response)
                        else old(response)["Status" := JStr("FAILED")]["Reason" := JStr(InvalidPropertiesPrefix + Message(v.1.value))]
    {
      var injected, error := Validate(Properties(), requestSchema);
      SetProperties(injected);
      ok := error.None?;
      if !ok {
        Fail(InvalidPropertiesPrefix + Message(error.value));
      }
    }

    /** `is_supported_request`: the type check, failing the response with the type names when it does not hold. */
    method IsSupportedRequest() returns (ok: bool)
      requires Valid()
      requires "ResourceType" in request
      modifies this`response
      ensures Valid()
      ensures ok == IsSupportedResourceType()
      ensures response == if ok then old(response)
                          else old(response)["Status" := JStr("FAILED")]
                                            ["Reason" := JStr(UnsupportedReason(request["ResourceType"], CustomResourceName()))]
    {
      ok := IsSupportedResourceType();
      if !ok {
        Fail(UnsupportedReason(request["ResourceType"], CustomResourceName()));
      }
    }

    /**
     * `send_response`: the response is delivered to the ResponseURL. A
     * request without one raises the KeyError of `request['ResponseURL']`
     * before anything is sent.
     */
    method SendResponse() returns (outcome: Outcome)
      modifies this`sent
      ensures "ResponseURL" in request ==> outcome == Returned && sent == old(sent) + [response]
      ensures "ResponseURL" !in request ==> outcome == Raised("'ResponseURL'") && sent == old(sent)
    {
      if "ResponseURL" !in request {
        return Raised("'ResponseURL'");
      }
      sent := sent + [response];
      outcome := Returned;
    }
  }
}
