/**
 * The request lifecycle every provider shares: `execute` runs the three
 * validation checks in order, stopping at the first that fails, and then
 * exactly one lifecycle hook chosen by the RequestType; `handle` sets the
 * request, executes it, turns an escaping exception into a failure, and
 * delivers the response unless the provider went asynchronous.
 */
module Lifecycle {
  import opened Wrappers
  import opened Json
  import opened DefaultInjectingValidator
  import opened Remote
  import opened ResourceProvider
  import Cert = CertificateProvider
  import DnsRecord = CertificateDnsRecordProvider
  import Issued = IssuedCertificateProvider

  /**
   * The reason of the first of the three checks of `execute` that fails:
   * the CloudFormation request schema, then the provider's property schema,
   * then the resource type. `None` when all three pass.
   */
  function ValidationFailure(request: Object, schema: Schema, className: string): Option<string> {
    if Check(request, CfnRequestSchema).Some? then Some(InvalidCfnRequestReason)
    else
      var v := Validation(PropertiesOf(request), schema);
      if v.1.Some? then Some(InvalidPropertiesPrefix + Message(v.1.value))
      else if !("ResourceType" in request && request["ResourceType"] == JStr(CustomCfnResourceName(className))) then
        Some(UnsupportedReason(Lookup(request, "ResourceType", JNull), CustomCfnResourceName(className)))
      else None
  }

  /** The request as the checks leave it: defaults injected once the request schema holds. */
  function Validated(request: Object, schema: Schema): Object {
    if Check(request, CfnRequestSchema).Some? then request
    else request["ResourceProperties" := JObj(Validation(PropertiesOf(request), schema).0)]
  }

  /** The response of a request the checks refuse: FAILED with the reason, except that a Delete is forced back to SUCCESS. */
  function Refused(response: Object, reason: string, isDelete: bool): Object {
    var failed := response["Status" := JStr("FAILED")]["Reason" := JStr(reason)];
    if isDelete then failed["Status" := JStr("SUCCESS")] else failed
  }

  /** A refused Delete still succeeds; any refusal's Reason says why it was refused. */
  lemma RefusedFields(response: Object, reason: string, isDelete: bool)
    ensures Refused(response, reason, isDelete)["Status"] == JStr(if isDelete then "SUCCESS" else "FAILED")
    ensures Refused(response, reason, isDelete)["Reason"] == JStr(reason)
  {
  }

  /** The hook for the request type; the CloudFormation schema leaves Delete as the only other type. */
  function HookFor(request: Object): Hook {
    if IsType(request, "Create") then CreateHook
    else if IsType(request, "Update") then UpdateHook
    else DeleteHook
  }

  /** The frame every hook stays within: the RequestType and the ids are never touched. */
  predicate KeepsRequestType(before: Object, after: Object) {
    && (forall k :: k in before && k != "ResourceProperties" ==> k in after && after[k] == before[k])
  }

  /**
   * The effect of one lifecycle hook of a provider of `kind`, from state `s`
   * to state `t`, as each provider defines its hooks.
   */
  ghost predicate HookEffect(kind: ProviderKind, hook: Hook, env: Env, s: Snapshot, t: Snapshot, outcome: Outcome) {
    match kind
    case CertificateKind => CertificateHookEffect(hook, env, s, t, outcome)
    case DnsRecordKind => DnsRecordHookEffect(hook, env, s, t, outcome)
    case IssuedCertificateKind => IssuedHookEffect(hook, env, s, t, outcome)
  }

  /** The certificate provider's three hooks: request, update or reject, delete. */
  ghost predicate CertificateHookEffect(hook: Hook, env: Env, s: Snapshot, t: Snapshot, outcome: Outcome) {
    match hook
    case CreateHook => Cert.Created(env, s, t, outcome)
    case UpdateHook => Cert.Updated(env, s, t, outcome)
    case DeleteHook => Cert.Deleted(env, s, t, outcome)
  }

  /** Create and Update poll for the record; Delete does nothing. */
  predicate DnsRecordHookEffect(hook: Hook, env: Env, s: Snapshot, t: Snapshot, outcome: Outcome) {
    if hook == DeleteHook then outcome == Returned && t == s else DnsRecord.Polled(env, s, t, outcome)
  }

  /** Create and Update check the certificate's status; Delete does nothing. */
  predicate IssuedHookEffect(hook: Hook, env: Env, s: Snapshot, t: Snapshot, outcome: Outcome) {
    if hook == DeleteHook then outcome == Returned && t == s else Issued.Checked(env, s, t, outcome)
  }

  /** One lifecycle hook of the provider's kind. */
  method RunHook(p: Provider, env: Env, hook: Hook) returns (outcome: Outcome)
    requires p.Valid()
    requires "ResourceProperties" in p.request && p.request["ResourceProperties"].JObj?
    modifies p`request, p`response, p`asynchronous, p`calls, p`hooksRun
    ensures p.Valid()
    ensures p.hooksRun == old(p.hooksRun) + [hook]
    ensures HookEffect(p.kind, hook, env, old(p.Current()), p.Current(), outcome)
    ensures KeepsRequestType(old(p.request), p.request)
  {
    match p.kind {
      case CertificateKind => outcome := RunCertificateHook(p, env, hook);
      case DnsRecordKind => outcome := RunDnsRecordHook(p, env, hook);
      case IssuedCertificateKind => outcome := RunIssuedHook(p, env, hook);
    }
    p.hooksRun := p.hooksRun + [hook];
  }

  /** The hooks of the certificate provider. */
  method RunCertificateHook(p: Provider, env: Env, hook: Hook) returns (outcome: Outcome)
    requires p.Valid()
    modifies p`response, p`calls
    ensures p.Valid()
    ensures CertificateHookEffect(hook, env, old(p.Current()), p.Current(), outcome)
  {
    match hook {
      case CreateHook => outcome := Cert.Create(p, env);
      case UpdateHook => outcome := Cert.Update(p, env);
      case DeleteHook => outcome := Cert.Delete(p, env);
    }
  }

  /** The hooks of the DNS-record provider. */
  method RunDnsRecordHook(p: Provider, env: Env, hook: Hook) returns (outcome: Outcome)
    requires p.Valid()
    modifies p`response
    ensures p.Valid()
    ensures DnsRecordHookEffect(hook, env, old(p.Current()), p.Current(), outcome)
  {
    match hook {
      case CreateHook => outcome := DnsRecord.Create(p, env);
      case UpdateHook => outcome := DnsRecord.Update(p, env);
      case DeleteHook => outcome := DnsRecord.Delete(p);
    }
  }

  /** The hooks of the issued-certificate provider, which rewrite only the Attempt property of the request. */
  method RunIssuedHook(p: Provider, env: Env, hook: Hook) returns (outcome: Outcome)
    requires p.Valid()
    requires "ResourceProperties" in p.request && p.request["ResourceProperties"].JObj?
    modifies p`request, p`response, p`asynchronous, p`calls
    ensures p.Valid()
    ensures IssuedHookEffect(hook, env, old(p.Current()), p.Current(), outcome)
    ensures KeepsRequestType(old(p.request), p.request)
  {
    match hook {
      case CreateHook => outcome := Issued.Create(p, env);
      case UpdateHook => outcome := Issued.Update(p, env);
      case DeleteHook => outcome := Issued.Delete(p);
    }
    IssuedHookKeepsRequestType(hook, env, old(p.Current()), p.Current(), outcome);
  }

  /** The issued-certificate hooks change only the attempt counter among the request's fields, inside ResourceProperties. */
  lemma IssuedHookKeepsRequestType(hook: Hook, env: Env, s: Snapshot, t: Snapshot, outcome: Outcome)
    requires IssuedHookEffect(hook, env, s, t, outcome)
    ensures KeepsRequestType(s.request, t.request)
  {
  }

  /** Validation rewrites only the properties. */
  lemma ValidatedKeepsRequestType(request: Object, schema: Schema)
    ensures KeepsRequestType(request, Validated(request, schema))
  {
  }

  lemma KeepsRequestTypeTransitive(a: Object, b: Object, c: Object)
    requires KeepsRequestType(a, b) && KeepsRequestType(b, c)
    ensures KeepsRequestType(a, c)
  {
  }

  /** The hook for the provider's request, which the CloudFormation schema limits to the three types. */
  method HookOf(p: Provider) returns (hook: Hook)
    requires "RequestType" in p.request && p.request["RequestType"] in [JStr("Create"), JStr("Update"), JStr("Delete")]
    ensures hook == HookFor(p.request)
    ensures hook == DeleteHook ==> p.IsRequestType("Delete")
  {
    if p.IsRequestType("Create") {
      hook := CreateHook;
    } else if p.IsRequestType("Update") {
      hook := UpdateHook;
    } else {
      assert p.IsRequestType("Delete");
      hook := DeleteHook;
    }
  }

  /**
   * The three checks of `execute`, each run only when the ones before it
   * passed; a failing check fails the response with its reason.
   */
  method RunChecks(p: Provider) returns (ok: bool)
    requires p.Valid()
    modifies p`request, p`response
    ensures p.Valid()
    ensures p.request == Validated(old(p.request), p.requestSchema)
    ensures ok == ValidationFailure(old(p.request), p.requestSchema, p.className).None?
    ensures ok ==> Check(old(p.request), CfnRequestSchema).None? && p.response == old(p.response)
    ensures !ok ==> p.response == old(p.response)["Status" := JStr("FAILED")]
                                  ["Reason" := JStr(ValidationFailure(old(p.request), p.requestSchema, p.className).value)]
  {
    ok := p.IsValidCfnRequest();
    if ok {
      ValidCfnRequestShape(p.request);
      assert PropertiesOf(p.request) == p.Properties();
      ok := p.IsValidRequest();
      if ok {
        ok := p.IsSupportedRequest();
      }
    }
  }

  /**
   * What `execute` promises, from state `s` with hooks `hooks0` run to state
   * `t` with hooks `hooks` run: a refused request returns with the refusal
   * and runs no hook; an accepted one runs exactly the hook of its type, on
   * the validated request, and keeps every request field but the properties.
   */
  ghost predicate Executed(kind: ProviderKind, schema: Schema, className: string, env: Env,
                           s: Snapshot, hooks0: seq<Hook>, t: Snapshot, hooks: seq<Hook>, outcome: Outcome)
  {
    var failure := ValidationFailure(s.request, schema, className);
    var validated := s.(request := Validated(s.request, schema));
    && (failure.Some? ==>
          && outcome == Returned && hooks == hooks0
          && t == validated.(response := Refused(s.response, failure.value, IsType(s.request, "Delete"))))
    && (failure.None? ==>
          && hooks == hooks0 + [HookFor(s.request)]
          && HookEffect(kind, HookFor(s.request), env, validated, t, outcome)
          && KeepsRequestType(s.request, t.request))
  }

  /**
   * `execute`: the checks, then exactly the hook of the request type. A
   * refused Delete is forced to SUCCESS (keeping the failure's Reason),
   * since a failed delete stalls the stack. The response check after the
   * hook only logs.
   */
  method Execute(p: Provider, env: Env) returns (outcome: Outcome)
    requires p.Valid()
    modifies p`request, p`response, p`asynchronous, p`calls, p`hooksRun
    ensures p.Valid()
    ensures Executed(p.kind, p.requestSchema, p.className, env, old(p.Current()), old(p.hooksRun), p.Current(), p.hooksRun, outcome)
  {
    ghost var s0 := p.Current();
    ghost var hooks0 := p.hooksRun;
    var ok := RunChecks(p);
    ghost var s1 := p.Current();
    ValidatedKeepsRequestType(s0.request, p.requestSchema);
    if ok {
      ValidatedShape(s0.request, p.requestSchema);
      assert s1 == s0.(request := Validated(s0.request, p.requestSchema));
      assert HookFor(s1.request) == HookFor(s0.request);
      outcome := Dispatch(p, env);
      assert HookEffect(p.kind, HookFor(s0.request), env, s1, p.Current(), outcome);
      KeepsRequestTypeTransitive(s0.request, s1.request, p.request);
      AcceptedExecution(p.kind, p.requestSchema, p.className, env, s0, hooks0, p.Current(), p.hooksRun, outcome);
    } else {
      assert IsType(s1.request, "Delete") == IsType(s0.request, "Delete");
      Refuse(p);
      outcome := Returned;
      RefusedExecution(p.kind, p.requestSchema, p.className, env, s0, hooks0, p.Current(), p.hooksRun, outcome);
    }
  }

  /** An accepted request that ran its hook on the validated request has executed as `execute` promises. */
  lemma AcceptedExecution(kind: ProviderKind, schema: Schema, className: string, env: Env,
                          s: Snapshot, hooks0: seq<Hook>, t: Snapshot, hooks: seq<Hook>, outcome: Outcome)
    requires ValidationFailure(s.request, schema, className).None?
    requires hooks == hooks0 + [HookFor(s.request)]
    requires HookEffect(kind, HookFor(s.request), env, s.(request := Validated(s.request, schema)), t, outcome)
    requires KeepsRequestType(s.request, t.request)
    ensures Executed(kind, schema, className, env, s, hooks0, t, hooks, outcome)
  {
  }

  /** A refused request that returned with the refusal and ran no hook has executed as `execute` promises. */
  lemma RefusedExecution(kind: ProviderKind, schema: Schema, className: string, env: Env,
                         s: Snapshot, hooks0: seq<Hook>, t: Snapshot, hooks: seq<Hook>, outcome: Outcome)
    requires ValidationFailure(s.request, schema, className).Some?
    requires outcome == Returned && hooks == hooks0
    requires t == s.(request := Validated(s.request, schema),
                     response := Refused(s.response, ValidationFailure(s.request, schema, className).value, IsType(s.request, "Delete")))
    ensures Executed(kind, schema, className, env, s, hooks0, t, hooks, outcome)
  {
  }

  /** The request schema's guarantees that the hooks rely on survive the validation of the properties. */
  lemma ValidatedShape(request: Object, schema: Schema)
    requires Check(request, CfnRequestSchema).None?
    ensures "RequestType" in Validated(request, schema)
    ensures Validated(request, schema)["RequestType"] in [JStr("Create"), JStr("Update"), JStr("Delete")]
    ensures "ResourceProperties" in Validated(request, schema) && Validated(request, schema)["ResourceProperties"].JObj?
  {
    ValidCfnRequestShape(request);
  }

  /** The accepted branch of `execute`: the hook of the request type, then the response check, which only logs. */
  method Dispatch(p: Provider, env: Env) returns (outcome: Outcome)
    requires p.Valid()
    requires "RequestType" in p.request && p.request["RequestType"] in [JStr("Create"), JStr("Update"), JStr("Delete")]
    requires "ResourceProperties" in p.request && p.request["ResourceProperties"].JObj?
    modifies p`request, p`response, p`asynchronous, p`calls, p`hooksRun
    ensures p.Valid()
    ensures p.hooksRun == old(p.hooksRun) + [HookFor(old(p.request))]
    ensures HookEffect(p.kind, HookFor(old(p.request)), env, old(p.Current()), p.Current(), outcome)
    ensures KeepsRequestType(old(p.request), p.request)
  {
    var hook := HookOf(p);
    outcome := RunHook(p, env, hook);
    if outcome == Returned {
      var responseValid := IsValidCfnResponse(p.response);  // only logged
    }
  }

  /** The refused branch of `execute`: a Delete is forced back to SUCCESS, keeping the Reason. */
  method Refuse(p: Provider)
    requires p.Valid()
    modifies p`response
    ensures p.Valid()
    ensures p.response == if IsType(p.request, "Delete") then old(p.response)["Status" := JStr("SUCCESS")] else old(p.response)
  {
    if p.IsRequestType("Delete") {
      p.Success(None);
    }
  }

  /**
   * The exception path of `handle`: a Create that has no physical id yet
   * gets "could-not-create", and the exception's text becomes the Reason
   * only while the Status is still SUCCESS.
   */
  function Recovered(response: Object, isCreate: bool, outcome: Outcome): (r: Object)
    requires WellFormed(response)
    ensures WellFormed(r)
    ensures outcome.Raised? && response["Status"] == JStr("FAILED") ==>
      r["Status"] == JStr("FAILED") && r["Reason"] == response["Reason"]
    ensures outcome.Raised? && response["Status"] == JStr("SUCCESS") ==>
      r["Status"] == JStr("FAILED") && r["Reason"] == JStr(outcome.message)
    ensures outcome.Raised? && isCreate && Lookup(response, "PhysicalResourceId", JNull) == JNull ==>
      Lookup(r, "PhysicalResourceId", JNull) == JStr("could-not-create")
    ensures !(outcome.Raised? && isCreate && Lookup(response, "PhysicalResourceId", JNull) == JNull) ==>
      Lookup(r, "PhysicalResourceId", JNull) == Lookup(response, "PhysicalResourceId", JNull)
    ensures r["Data"] == response["Data"]
    ensures !outcome.Raised? ==> r == response
  {
    if !outcome.Raised? then response
    else
      var marked := if isCreate && Lookup(response, "PhysicalResourceId", JNull) == JNull then
                      response["PhysicalResourceId" := JStr("could-not-create")] else response;
      if marked["Status"] == JStr("SUCCESS") then marked["Status" := JStr("FAILED")]["Reason" := JStr(outcome.message)] else marked
  }

  /** The `except` clause of `handle`, applied to the response execution left. */
  method Recover(p: Provider, outcome: Outcome)
    requires p.Valid()
    modifies p`response
    ensures p.Valid()
    ensures p.response == Recovered(old(p.response), p.IsRequestType("Create"), outcome)
  {
    if outcome.Raised? {
      if p.IsRequestType("Create") && p.PhysicalResourceId() == JNull {
        p.SetPhysicalResourceId(JStr("could-not-create"));
      }
      if p.Status() == "SUCCESS" {
        p.Fail(outcome.message);
      }
    }
  }

  /**
   * The `finally` clause of `handle` puts the response: the provider did not
   * go asynchronous, the invocation was not cut off, and the request has a
   * ResponseURL to put it to.
   */
  predicate Sends(request: Object, asynchronous: bool, outcome: Outcome) {
    !asynchronous && !outcome.TimedOut? && "ResponseURL" in request
  }

  /**
   * `handle` returns nothing: the invocation was cut off, or the `finally`
   * clause raised the KeyError of a request without a ResponseURL.
   */
  predicate Unanswered(request: Object, asynchronous: bool, outcome: Outcome) {
    outcome.TimedOut? || (!asynchronous && "ResponseURL" !in request)
  }

  /**
   * The end of `handle` once execution has ended as `outcome`: the except
   * clause, then the `finally` clause, which delivers the response unless
   * the provider went asynchronous. An invocation cut off by its time limit
   * runs neither.
   */
  method Deliver(p: Provider, outcome: Outcome) returns (result: Option<Object>)
    requires p.Valid()
    modifies p`response, p`sent
    ensures p.Valid()
    ensures p.response == Recovered(old(p.response), p.IsRequestType("Create"), outcome)
    ensures p.sent == old(p.sent) + (if Sends(p.request, p.asynchronous, outcome) then [p.response] else [])
    ensures result == if Unanswered(p.request, p.asynchronous, outcome) then None else Some(p.response)
  {
    if outcome.TimedOut? {
      return None;
    }
    Recover(p, outcome);
    if !p.asynchronous {
      var delivery := p.SendResponse();
      if delivery.Raised? {
        return None;  // the KeyError escapes `handle`
      }
    }
    result := Some(p.response);
  }

  /** The `try` clause of `handle`: set the request, then execute it. */
  method Start(p: Provider, request: Object, env: Env) returns (outcome: Outcome)
    requires HasIds(request)
    modifies p`request, p`response, p`asynchronous, p`calls, p`hooksRun
    ensures p.Valid()
    ensures Executed(p.kind, p.requestSchema, p.className, env, Started(request, old(p.calls)), old(p.hooksRun),
                     p.Current(), p.hooksRun, outcome)
    ensures IsType(p.request, "Create") == IsType(request, "Create")
  {
    p.SetRequest(request);
    assert p.Current() == Started(request, old(p.calls));
    outcome := Execute(p, env);
    ValidatedKeepsRequestType(request, p.requestSchema);
  }

  /** The state `set_request` leaves, the one execution starts from. */
  function Started(request: Object, calls: seq<Call>): (s: Snapshot)
    requires HasIds(request)
    ensures s.request == request && WellFormed(s.response) && s.calls == calls && !s.asynchronous
  {
    Snapshot(request, InitialResponse(request), calls, false)
  }

  /**
   * What `handle` promises of provider `p`, which had issued `calls0`, run
   * `hooks0` and delivered `sent0` before. `outcome` says how execution
   * ended and `executed` is the state execution left.
   */
  ghost predicate Handled(p: Provider, request: Object, env: Env, calls0: seq<Call>, hooks0: seq<Hook>, sent0: seq<Object>,
                          result: Option<Object>, outcome: Outcome, executed: Snapshot)
    reads p
  {
    && HasIds(request) && p.Valid() && WellFormed(executed.response)
    // Execution: the checks, then at most the hook of the request type.
    && Executed(p.kind, p.requestSchema, p.className, env, Started(request, calls0), hooks0, executed, p.hooksRun, outcome)
    // The except clause, and nothing else, follows.
    && p.Current() == executed.(response := Recovered(executed.response, IsType(request, "Create"), outcome))
    // The finally clause delivers the response unless the provider went
    // asynchronous, and raises when the request has no ResponseURL.
    && p.sent == sent0 + (if Sends(p.request, p.asynchronous, outcome) then [p.response] else [])
    && result == (if Unanswered(p.request, p.asynchronous, outcome) then None else Some(p.response))
  }

  /**
   * `handle`: the result is the response, or nothing when the invocation
   * was cut off by its time limit or the response had nowhere to go.
   */
  method Handle(p: Provider, request: Object, env: Env) returns (result: Option<Object>, outcome: Outcome, ghost executed: Snapshot)
    requires HasIds(request)
    modifies p`request, p`response, p`asynchronous, p`calls, p`hooksRun, p`sent
    ensures Handled(p, request, env, old(p.calls), old(p.hooksRun), old(p.sent), result, outcome, executed)
  {
    ghost var calls0, hooks0, sent0 := p.calls, p.hooksRun, p.sent;
    outcome := Start(p, request, env);
    executed := p.Current();
    result := Deliver(p, outcome);
    HandledByParts(p, request, env, calls0, hooks0, sent0, result, outcome, executed);
  }

  /** `handle`'s promise, assembled from what execution and delivery each promise. */
  lemma HandledByParts(p: Provider, request: Object, env: Env, calls0: seq<Call>, hooks0: seq<Hook>, sent0: seq<Object>,
                       result: Option<Object>, outcome: Outcome, executed: Snapshot)
    requires HasIds(request) && p.Valid() && WellFormed(executed.response)
    requires Executed(p.kind, p.requestSchema, p.className, env, Started(request, calls0), hooks0, executed, p.hooksRun, outcome)
    requires p.Current() == executed.(response := Recovered(executed.response, IsType(request, "Create"), outcome))
    requires p.sent == sent0 + (if Sends(p.request, p.asynchronous, outcome) then [p.response] else [])
    requires result == (if Unanswered(p.request, p.asynchronous, outcome) then None else Some(p.response))
    ensures Handled(p, request, env, calls0, hooks0, sent0, result, outcome, executed)
  {
  }

  /**
   * A refused request is answered at once with the refusal, and no remote
   * call is made; one that has no ResponseURL is refused, but the KeyError
   * of the `finally` clause leaves it unanswered.
   */
  lemma RefusedIsAnswered(p: Provider, request: Object, env: Env, calls0: seq<Call>, hooks0: seq<Hook>, sent0: seq<Object>,
                          result: Option<Object>, outcome: Outcome, executed: Snapshot)
    requires Handled(p, request, env, calls0, hooks0, sent0, result, outcome, executed)
    requires ValidationFailure(request, p.requestSchema, p.className).Some?
    ensures p.response == Refused(InitialResponse(request), ValidationFailure(request, p.requestSchema, p.className).value,
                                  IsType(request, "Delete"))
    ensures p.calls == calls0
    ensures "ResponseURL" in request ==> result == Some(p.response) && p.sent == sent0 + [p.response]
    ensures "ResponseURL" !in request ==> result == None && p.sent == sent0
  {
  }

  /**
   * An issued-certificate Create whose certificate is still pending makes
   * the provider asynchronous: this invocation delivers nothing, and the
   * re-invoked function answers later.
   */
  lemma PendingCertificateIsNotAnswered(p: Provider, request: Object, env: Env, calls0: seq<Call>, hooks0: seq<Hook>,
                                        sent0: seq<Object>, result: Option<Object>, outcome: Outcome, executed: Snapshot,
                                        c: Certificate)
    requires Handled(p, request, env, calls0, hooks0, sent0, result, outcome, executed)
    requires p.kind == IssuedCertificateKind && IsType(request, "Create")
    requires ValidationFailure(request, p.requestSchema, p.className).None?
    requires DnsRecord.CertificateOf(Lookup(PropertiesOf(Validated(request, p.requestSchema)), "CertificateArn", JNull), env, 0)
             == DnsRecord.Found(c)
    requires c.status != "ISSUED"
    ensures p.asynchronous && p.sent == sent0 && result.Some?
  {
    ValidatedKeepsRequestType(request, p.requestSchema);
    var validated := Started(request, calls0).(request := Validated(request, p.requestSchema));
    assert HookFor(request) == CreateHook;
    assert Issued.Checked(env, validated, executed, outcome);
    assert executed.asynchronous && !outcome.TimedOut?;
  }

  /**
   * A DNS-record Create or Update whose poll runs out of rounds is cut off:
   * nothing is delivered and nothing is returned.
   */
  lemma PollTimeoutIsNotAnswered(p: Provider, request: Object, env: Env, calls0: seq<Call>, hooks0: seq<Hook>,
                                 sent0: seq<Object>, result: Option<Object>, outcome: Outcome, executed: Snapshot)
    requires Handled(p, request, env, calls0, hooks0, sent0, result, outcome, executed)
    requires p.kind == DnsRecordKind && (IsType(request, "Create") || IsType(request, "Update"))
    requires ValidationFailure(request, p.requestSchema, p.className).None?
    requires var props := PropertiesOf(Validated(request, p.requestSchema));
             DnsRecord.Poll(Lookup(props, "CertificateArn", JNull), Lookup(props, "DomainName", JNull), env) == DnsRecord.PollTimedOut
    ensures outcome == TimedOut && result == None && p.sent == sent0
  {
    var validated := Started(request, calls0).(request := Validated(request, p.requestSchema));
    assert DnsRecord.Polled(env, validated, executed, outcome);
  }
}
