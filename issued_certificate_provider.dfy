/**
 * The issued-certificate provider (resource type Custom::IssuedCertificate):
 * reports success once the certificate is issued; while it is pending
 * validation it counts the attempt in the request's properties and
 * re-invokes its own function asynchronously with the updated request,
 * without answering this invocation.
 */
module IssuedCertificateProvider {
  import opened Wrappers
  import opened PyStrings
  import opened Json
  import opened DefaultInjectingValidator
  import opened Remote
  import opened ResourceProvider
  import Dns = CertificateDnsRecordProvider

  const ClassName: string := "IssuedCertificateProvider"

  /** The schema of the ResourceProperties: CertificateArn is required and a string. */
  const IssuedSchema: Schema :=
    Schema(["CertificateArn"], [PropertySchema("CertificateArn", Some(StringType), None, None, None)])

  method NewProvider() returns (p: Provider)
    ensures fresh(p) && p.kind == IssuedCertificateKind && p.className == ClassName && p.requestSchema == IssuedSchema
    ensures p.calls == [] && p.sent == [] && p.hooksRun == [] && !p.asynchronous
  {
    p := new Provider(IssuedCertificateKind, ClassName, IssuedSchema);
  }

  // ---------------------------------------------------------------------
  // The attempt counter

  /** `int(v)`: the value, or the text of the ValueError or TypeError it raises. */
  datatype IntResult = IntOk(value: int) | IntRaised(message: string)

  /** The fixed starts of the texts of `int()`'s ValueError and TypeError, as Python 3.10 and later word them. */
  const InvalidLiteral: string := "invalid literal for int() with base 10: "
  const NotANumber: string := "int() argument must be a string, a bytes-like object or a real number, not '"

  function IntOf(v: Json): (r: IntResult)
    ensures v.JInt? ==> r == IntOk(v.i)
    ensures v.JStr? ==> (r.IntOk? <==> IsInt(v.s))
  {
    match v
    case JInt(i) => IntOk(i)
    case JBool(b) => IntOk(if b then 1 else 0)
    case JStr(s) =>
      if IsInt(s) then IntOk(IntValue(s))
      else IntRaised(InvalidLiteral + Repr(v))
    case _ => IntRaised(NotANumber + TypeName(v) + "'")
  }

  /** `attempt`: the Attempt property as an integer, 1 when absent. */
  function Attempt(properties: Object): IntResult {
    IntOf(Lookup(properties, "Attempt", JInt(1)))
  }

  /** The counter as written by one increment reads back one higher. */
  lemma AttemptIncrements(properties: Object)
    requires Attempt(properties).IntOk?
    ensures Attempt(properties["Attempt" := JInt(Attempt(properties).value + 1)]) == IntOk(Attempt(properties).value + 1)
  {
  }

  /** A counter received as the text CloudFormation sends reads as its number. */
  lemma AttemptFromText(properties: Object, n: int)
    requires "Attempt" in properties && properties["Attempt"] == JStr(IntToString(n))
    ensures Attempt(properties) == IntOk(n)
  {
    IntRoundTrip(n);
  }

  /** The first re-invocation carries Attempt 2. */
  lemma FirstAttempt(properties: Object)
    requires "Attempt" !in properties
    ensures Attempt(properties) == IntOk(1)
  {
  }

  /**
   * `increment_attempt` then the asynchronous invoke, from state `s` to
   * state `t`: the counter is written into the request's properties in
   * place, and the whole request, as it is afterwards, is the payload. The
   * flag that suppresses the response is set before anything can go wrong;
   * the response is not touched.
   */
  predicate Reinvoked(env: Env, s: Snapshot, t: Snapshot, outcome: Outcome) {
    var props := PropertiesOf(s.request);
    && t.asynchronous && t.response == s.response
    && match Attempt(props)
       case IntRaised(m) => outcome == Raised(m) && t.request == s.request && t.calls == s.calls
       case IntOk(a) =>
         var request := s.request["ResourceProperties" := JObj(props["Attempt" := JInt(a + 1)])];
         var target := Lookup(props, "ServiceToken", JNull);
         && t.request == request
         && t.calls == s.calls + [InvokeCall(target, request)]
         && outcome == match env.invoke(target, request)
            case Ok(_) => Returned
            case ClientError(m) => Raised(m)
  }

  method AsyncReinvoke(p: Provider, env: Env) returns (outcome: Outcome)
    requires p.Valid()
    requires "ResourceProperties" in p.request && p.request["ResourceProperties"].JObj?
    modifies p`request, p`asynchronous, p`calls
    ensures p.Valid()
    ensures Reinvoked(env, old(p.Current()), p.Current(), outcome)
  {
    p.asynchronous := true;
    match Attempt(p.Properties()) {
      case IntRaised(m) =>
        return Raised(m);
      case IntOk(a) =>
        p.SetProperties(p.Properties()["Attempt" := JInt(a + 1)]);
        var target := p.Get("ServiceToken", JNull);
        p.calls := p.calls + [InvokeCall(target, p.request)];
        match env.invoke(target, p.request) {
          case Ok(_) => outcome := Returned;
          case ClientError(m) => outcome := Raised(m);
        }
    }
  }

  // ---------------------------------------------------------------------
  // The status check

  /**
   * `check`, from state `s` to state `t`: the physical id becomes the
   * CertificateArn first; an issued certificate succeeds, a pending one is
   * re-invoked, and a failed precondition fails the resource. The branch
   * for any other status is never reached, since the certificate lookup
   * itself raises for one.
   */
  predicate Checked(env: Env, s: Snapshot, t: Snapshot, outcome: Outcome) {
    var arn := Lookup(PropertiesOf(s.request), "CertificateArn", JNull);
    var withId := s.(response := s.response["PhysicalResourceId" := arn]);
    match Dns.CertificateOf(arn, env, 0)
    case Escaped(m) => outcome == Raised(m) && t == withId
    case PreconditionFailed(m) =>
      outcome == Returned && t == withId.(response := withId.response["Status" := JStr("FAILED")]["Reason" := JStr(m)])
    case Found(c) =>
      if c.status == "ISSUED" then
        outcome == Returned && t == withId.(response := withId.response["Status" := JStr("SUCCESS")])
      else
        Reinvoked(env, withId, t, outcome)
  }

  method Check(p: Provider, env: Env) returns (outcome: Outcome)
    requires p.Valid()
    requires "ResourceProperties" in p.request && p.request["ResourceProperties"].JObj?
    modifies p`request, p`response, p`asynchronous, p`calls
    ensures p.Valid()
    ensures Checked(env, old(p.Current()), p.Current(), outcome)
  {
    var arn := p.Get("CertificateArn", JNull);
    p.SetPhysicalResourceId(arn);
    match Dns.CertificateOf(arn, env, 0) {
      case Escaped(m) =>
        outcome := Raised(m);
      case PreconditionFailed(m) =>
        p.Fail(m);
        outcome := Returned;
      case Found(c) =>
        if c.status == "ISSUED" {
          p.Success(None);
          outcome := Returned;
        } else {
          assert c.status == "PENDING_VALIDATION";
          outcome := AsyncReinvoke(p, env);
        }
    }
  }

  method Create(p: Provider, env: Env) returns (outcome: Outcome)
    requires p.Valid()
    requires "ResourceProperties" in p.request && p.request["ResourceProperties"].JObj?
    modifies p`request, p`response, p`asynchronous, p`calls
    ensures p.Valid()
    ensures Checked(env, old(p.Current()), p.Current(), outcome)
  {
    outcome := Check(p, env);
  }

  method Update(p: Provider, env: Env) returns (outcome: Outcome)
    requires p.Valid()
    requires "ResourceProperties" in p.request && p.request["ResourceProperties"].JObj?
    modifies p`request, p`response, p`asynchronous, p`calls
    ensures p.Valid()
    ensures Checked(env, old(p.Current()), p.Current(), outcome)
  {
    outcome := Check(p, env);
  }

  /** `delete` does nothing. */
  method Delete(p: Provider) returns (outcome: Outcome)
    ensures outcome == Returned
  {
    outcome := Returned;
  }
}
