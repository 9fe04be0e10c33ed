/**
 * The Lambda entry point: one provider object per kind lives for the life
 * of the function, and each request goes to one of them by its
 * ResourceType. Anything that is neither a certificate nor an issued
 * certificate goes to the DNS-record provider, whose own type check then
 * refuses what it does not recognise.
 */
module Dispatcher {
  import opened Wrappers
  import opened Json
  import opened DefaultInjectingValidator
  import opened Remote
  import opened ResourceProvider
  import opened Lifecycle
  import Cert = CertificateProvider
  import DnsRecord = CertificateDnsRecordProvider
  import Issued = IssuedCertificateProvider

  datatype Route = ToCertificate | ToIssuedCertificate | ToDnsRecord

  /** The routing of `handler`. */
  function RouteOf(resourceType: Json): (r: Route)
    ensures r == ToCertificate <==> resourceType == JStr("Custom::Certificate")
    ensures r == ToIssuedCertificate <==> resourceType == JStr("Custom::IssuedCertificate")
    ensures r == ToDnsRecord <==> resourceType != JStr("Custom::Certificate") && resourceType != JStr("Custom::IssuedCertificate")
  {
    if resourceType == JStr("Custom::Certificate") then ToCertificate
    else if resourceType == JStr("Custom::IssuedCertificate") then ToIssuedCertificate
    else ToDnsRecord
  }

  /** Every provider is reached by exactly the type its own check accepts. */
  lemma RoutesMatchProviders()
    ensures RouteOf(JStr(CustomCfnResourceName(Cert.ClassName))) == ToCertificate
    ensures RouteOf(JStr(CustomCfnResourceName(Issued.ClassName))) == ToIssuedCertificate
    ensures RouteOf(JStr(CustomCfnResourceName(DnsRecord.ClassName))) == ToDnsRecord
  {
    CertificateTypeName(Cert.ClassName);
    IssuedCertificateTypeName(Issued.ClassName);
    DnsRecordTypeName(DnsRecord.ClassName);
  }

  /** The three providers as the modules create them, distinct objects. */
  predicate Providers(certificates: Provider, issued: Provider, dnsRecords: Provider) {
    && certificates.kind == CertificateKind && certificates.className == Cert.ClassName
    && certificates.requestSchema == Cert.CertificateSchema
    && issued.kind == IssuedCertificateKind && issued.className == Issued.ClassName
    && issued.requestSchema == Issued.IssuedSchema
    && dnsRecords.kind == DnsRecordKind && dnsRecords.className == DnsRecord.ClassName
    && dnsRecords.requestSchema == DnsRecord.DnsRecordSchema
    && certificates != issued && certificates != dnsRecords && issued != dnsRecords
  }

  /** A request that passes the request schema and the DNS-record property schema but names none of the three types. */
  predicate UnknownType(request: Object) {
    && "ResourceType" in request
    && request["ResourceType"] != JStr("Custom::Certificate")
    && request["ResourceType"] != JStr("Custom::IssuedCertificate")
    && request["ResourceType"] != JStr("Custom::CertificateDNSRecord")
    && Check(request, CfnRequestSchema).None?
    && Validation(PropertiesOf(request), DnsRecord.DnsRecordSchema).1.None?
  }

  /** The DNS-record provider's checks refuse such a request for its type alone. */
  lemma UnknownTypeRefused(request: Object)
    requires UnknownType(request)
    ensures RouteOf(request["ResourceType"]) == ToDnsRecord
    ensures ValidationFailure(request, DnsRecord.DnsRecordSchema, DnsRecord.ClassName)
         == Some(UnsupportedReason(request["ResourceType"], "Custom::CertificateDNSRecord"))
  {
    DnsRecordTypeName(DnsRecord.ClassName);
  }

  /**
   * The DNS-record provider answers a request of an unknown type at once:
   * FAILED, or SUCCESS for a Delete, with a Reason that names both types,
   * and without running a hook.
   */
  lemma UnknownTypeAnswered(p: Provider, request: Object, env: Env, calls0: seq<Call>, hooks0: seq<Hook>, sent0: seq<Object>,
                            result: Option<Object>, outcome: Outcome, executed: Snapshot)
    requires Handled(p, request, env, calls0, hooks0, sent0, result, outcome, executed)
    requires p.className == DnsRecord.ClassName && p.requestSchema == DnsRecord.DnsRecordSchema
    requires UnknownType(request)
    ensures result.Some? && WellFormed(result.value)
    ensures result.value["Status"] == JStr(if IsType(request, "Delete") then "SUCCESS" else "FAILED")
    ensures result.value["Reason"] == JStr(UnsupportedReason(request["ResourceType"], "Custom::CertificateDNSRecord"))
    ensures p.sent == sent0 + [result.value] && p.hooksRun == hooks0
  {
    var reason := UnsupportedReason(request["ResourceType"], "Custom::CertificateDNSRecord");
    UnknownTypeRefused(request);
    HasResponseUrl(request);
    RefusedIsAnswered(p, request, env, calls0, hooks0, sent0, result, outcome, executed);
    RefusedFields(InitialResponse(request), reason, IsType(request, "Delete"));
  }

  /**
   * `handler`: a request without a ResourceType fails the invocation with a
   * KeyError, before any provider sees it; otherwise the routed provider
   * handles it, as `handle` promises, and the other two are untouched.
   * `outcome` and `executed` are those of the routed provider's `handle`.
   */
  method Handler(request: Object, certificates: Provider, issued: Provider, dnsRecords: Provider, env: Env)
    returns (result: Option<Object>, ghost outcome: Outcome, ghost executed: Snapshot)
    requires HasIds(request)
    requires Providers(certificates, issued, dnsRecords)
    modifies certificates, issued, dnsRecords
    ensures "ResourceType" !in request ==>
      && result == None && outcome == Raised("'ResourceType'")
      && unchanged(certificates) && unchanged(issued) && unchanged(dnsRecords)
    ensures "ResourceType" in request && RouteOf(request["ResourceType"]) == ToCertificate ==>
      && unchanged(issued) && unchanged(dnsRecords)
      && Handled(certificates, request, env, old(certificates.calls), old(certificates.hooksRun), old(certificates.sent),
                 result, outcome, executed)
    ensures "ResourceType" in request && RouteOf(request["ResourceType"]) == ToIssuedCertificate ==>
      && unchanged(certificates) && unchanged(dnsRecords)
      && Handled(issued, request, env, old(issued.calls), old(issued.hooksRun), old(issued.sent),
                 result, outcome, executed)
    ensures "ResourceType" in request && RouteOf(request["ResourceType"]) == ToDnsRecord ==>
      && unchanged(certificates) && unchanged(issued)
      && Handled(dnsRecords, request, env, old(dnsRecords.calls), old(dnsRecords.hooksRun), old(dnsRecords.sent),
                 result, outcome, executed)
    // A well-formed request of an unknown type is answered, and refused by
    // the DNS-record provider: FAILED, or SUCCESS for a Delete, and the
    // Reason names both types.
    ensures UnknownType(request) ==>
        && result.Some? && WellFormed(result.value)
        && result.value["Status"] == JStr(if IsType(request, "Delete") then "SUCCESS" else "FAILED")
        && result.value["Reason"] == JStr(UnsupportedReason(request["ResourceType"], "Custom::CertificateDNSRecord"))
        && dnsRecords.sent == old(dnsRecords.sent) + [result.value]
        && dnsRecords.hooksRun == old(dnsRecords.hooksRun)
  {
    if "ResourceType" !in request {
      return None, Raised("'ResourceType'"), Snapshot(map[], map[], [], false);  // the KeyError of request["ResourceType"]
    }
    match RouteOf(request["ResourceType"]) {
      case ToCertificate =>
        result, outcome, executed := Handle(certificates, request, env);
      case ToIssuedCertificate =>
        result, outcome, executed := Handle(issued, request, env);
      case ToDnsRecord =>
        result, outcome, executed := Handle(dnsRecords, request, env);
        if UnknownType(request) {
          UnknownTypeAnswered(dnsRecords, request, env, old(dnsRecords.calls), old(dnsRecords.hooksRun), old(dnsRecords.sent),
                              result, outcome, executed);
        }
    }
  }
}
