/**
 * The DNS-record provider (resource type Custom::CertificateDNSRecord):
 * looks up a certificate, picks the validation option of the requested
 * domain (or of the certificate's own domain), insists on DNS validation,
 * and waits until the option carries the DNS record to publish, which then
 * becomes the resource's attributes and physical id.
 */
module CertificateDnsRecordProvider {
  import opened Wrappers
  import opened PyStrings
  import opened Json
  import opened DefaultInjectingValidator
  import opened Remote
  import opened ResourceProvider

  const ClassName: string := "CertificateDNSRecordProvider"

  /** The schema of the ResourceProperties: CertificateArn is required; both properties are strings. */
  const DnsRecordSchema: Schema :=
    Schema(
      ["CertificateArn"],
      [ PropertySchema("CertificateArn", Some(StringType), None, None, None),
        PropertySchema("DomainName", Some(StringType), None, None, None)])

  method NewProvider() returns (p: Provider)
    ensures fresh(p) && p.kind == DnsRecordKind && p.className == ClassName && p.requestSchema == DnsRecordSchema
    ensures p.calls == [] && p.sent == [] && p.hooksRun == [] && !p.asynchronous
  {
    p := new Provider(DnsRecordKind, ClassName, DnsRecordSchema);
  }

  // ---------------------------------------------------------------------
  // Region and certificate lookup

  /** `arn.split(":")[3]`; `None` where the index is out of range. */
  function AcmRegion(arn: string): Option<string> {
    var pieces := Split(arn, ':');
    if |pieces| > 3 then Some(pieces[3]) else None
  }

  /** The region is the fourth colon-separated field of an ARN. */
  lemma AcmRegionOfArn(partition: string, service: string, account: string, region: string, rest: string)
    requires ':' !in partition && ':' !in service && ':' !in account && ':' !in region
    ensures AcmRegion(partition + ":" + service + ":" + account + ":" + region + ":" + rest) == Some(region)
  {
    var t3 := region + [':'] + rest;
    var t2 := account + [':'] + t3;
    var t1 := service + [':'] + t2;
    var arn := partition + [':'] + t1;
    assert arn == partition + ":" + service + ":" + account + ":" + region + ":" + rest;
    SplitPrefix(region, ':', rest);
    SplitPrefix(account, ':', t3);
    SplitPrefix(service, ':', t2);
    SplitPrefix(partition, ':', t1);
    assert Split(arn, ':') == [partition, service, account, region] + Split(rest, ':');
  }

  /** An ARN has no region field, so the lookup raises, exactly when it has fewer than three colons. */
  lemma AcmRegionMissing(arn: string)
    ensures AcmRegion(arn) == None <==> Occurrences(arn, ':') < 3
  {
    SplitCount(arn, ':');
  }

  /** The text of the IndexError raised by a format string with more placeholders than arguments, as Python 3.10 and later word it. */
  const FormatIndexError: string := "Replacement index 1 out of range for positional args tuple"

  /** How a certificate lookup ends. */
  datatype CertificateResult =
    | Found(certificate: Certificate)
    | PreconditionFailed(message: string)
    | Escaped(message: string)  // an exception the hook does not handle

  /**
   * The `certificate` property for the CertificateArn value: the region is
   * taken from the ARN, the certificate is described, and a status other
   * than PENDING_VALIDATION or ISSUED makes the message formatting raise.
   * A client error of the describe call is a failed precondition.
   */
  function CertificateOf(arn: Json, env: Env, round: nat): (r: CertificateResult)
    ensures r.Found? ==> r.certificate.status == "PENDING_VALIDATION" || r.certificate.status == "ISSUED"
    ensures r.Found? || r.PreconditionFailed? ==> arn.JStr? && AcmRegion(arn.s).Some?
    ensures r.PreconditionFailed? <==>
      arn.JStr? && AcmRegion(arn.s).Some? && env.describeCertificate(AcmRegion(arn.s).value, arn.s, round).ClientError?
    ensures r.PreconditionFailed? ==> r.message == env.describeCertificate(AcmRegion(arn.s).value, arn.s, round).message
    // The ARN cannot be split, or has no region field: the error escapes.
    ensures !arn.JStr? ==> r == Escaped(AttributeErrorMessage(arn, "split"))
    ensures arn.JStr? && AcmRegion(arn.s).None? ==> r == Escaped("list index out of range")
    // A described certificate is found exactly in a good status, and is then
    // the one described; any other status raises the format IndexError.
    ensures arn.JStr? && AcmRegion(arn.s).Some? && env.describeCertificate(AcmRegion(arn.s).value, arn.s, round).Ok? ==>
      var c := env.describeCertificate(AcmRegion(arn.s).value, arn.s, round).value;
      && (r.Found? <==> c.status == "PENDING_VALIDATION" || c.status == "ISSUED")
      && (r.Found? ==> r.certificate == c)
      && (!r.Found? ==> r == Escaped(FormatIndexError))
  {
    if !arn.JStr? then Escaped(AttributeErrorMessage(arn, "split"))
    else
      match AcmRegion(arn.s)
      case None => Escaped("list index out of range")
      case Some(region) =>
        match env.describeCertificate(region, arn.s, round)
        case ClientError(m) => PreconditionFailed(m)
        case Ok(c) =>
          if c.status == "PENDING_VALIDATION" || c.status == "ISSUED" then Found(c) else Escaped(FormatIndexError)
  }

  // ---------------------------------------------------------------------
  // Choosing the validation option

  /** The selection filter: the requested domain, or the certificate's domain when none is requested. */
  predicate Matches(o: ValidationOption, requested: Json, certificateDomain: string) {
    JStr(o.domainName) == requested || (!Truthy(requested) && o.domainName == certificateDomain)
  }

  function FirstMatch(options: seq<ValidationOption>, requested: Json, certificateDomain: string): (r: Option<nat>)
    ensures r.Some? ==> r.value < |options| && Matches(options[r.value], requested, certificateDomain)
    ensures r.Some? ==> forall j :: 0 <= j < r.value ==> !Matches(options[j], requested, certificateDomain)
    ensures r.None? ==> forall j :: 0 <= j < |options| ==> !Matches(options[j], requested, certificateDomain)
  {
    if options == [] then None
    else if Matches(options[0], requested, certificateDomain) then Some(0)
    else
      match FirstMatch(options[1..], requested, certificateDomain)
      case None => None
      case Some(i) => Some(i + 1)
  }

  /** `get_validation_option`: the first option that passes the filter, `None` when none does. */
  function GetValidationOption(c: Certificate, requested: Json): (r: Option<ValidationOption>)
    ensures r.None? <==> forall o :: o in c.options ==> !Matches(o, requested, c.domainName)
    ensures r.Some? ==> exists i :: (0 <= i < |c.options| && c.options[i] == r.value
      && Matches(r.value, requested, c.domainName)
      && forall j :: 0 <= j < i ==> !Matches(c.options[j], requested, c.domainName))
  {
    match FirstMatch(c.options, requested, c.domainName)
    case None => None
    case Some(i) => Some(c.options[i])
  }

  /** With no DomainName property the option of the certificate's own domain is chosen. */
  lemma {:induction false} NoDomainMeansCertificateDomain(options: seq<ValidationOption>, certificateDomain: string)
    ensures FirstMatch(options, JNull, certificateDomain) == FirstMatch(options, JStr(certificateDomain), certificateDomain)
  {
    if options != [] {
      NoDomainMeansCertificateDomain(options[1..], certificateDomain);
    }
  }

  /** The requested domain's option is chosen even where the certificate's own domain comes first. */
  lemma RequestedDomainChosen(c: Certificate, domain: string, i: nat)
    requires domain != "" && i < |c.options| && c.options[i].domainName == domain
    requires forall j :: 0 <= j < i ==> c.options[j].domainName != domain
    ensures GetValidationOption(c, JStr(domain)) == Some(c.options[i])
  {
    assert Matches(c.options[i], JStr(domain), c.domainName);
  }

  // ---------------------------------------------------------------------
  // One look at the DNS validation option

  /** What one evaluation of `dns_domain_validation_option.resource_record` yields. */
  datatype Step =
    | Record(record: ResourceRecord)
    | NoRecordYet
    | StepFailed(message: string)
    | StepEscaped(message: string)

  const NoOptionReason: string := "No validation option found for domain"

  function MethodReason(validationMethod: Option<string>): string {
    "domain is using validation method " + (if validationMethod.Some? then validationMethod.value else "None") + ", not DNS"
  }

  /**
   * `domain_validation_option` and `dns_domain_validation_option`: the
   * certificate, then an option for the domain, then DNS as its method.
   */
  function LookStep(arn: Json, requested: Json, env: Env, round: nat): Step
  {
    match CertificateOf(arn, env, round)
    case Escaped(m) => StepEscaped(m)
    case PreconditionFailed(m) => StepFailed(m)
    case Found(c) =>
      match GetValidationOption(c, requested)
      case None => StepFailed(NoOptionReason)
      case Some(o) =>
        if o.validationMethod != Some("DNS") then StepFailed(MethodReason(o.validationMethod))
        else if o.resourceRecord.None? then NoRecordYet
        else Record(o.resourceRecord.value)
  }

  /**
   * A lookup yields a record, or the wait for one, only for a certificate
   * in a good state whose chosen option uses DNS validation; a certificate
   * without an option for the domain fails the lookup.
   */
  lemma LookStepMeaning(arn: Json, requested: Json, env: Env, round: nat)
    ensures var r := LookStep(arn, requested, env, round);
      r.Record? || r.NoRecordYet? ==>
        && CertificateOf(arn, env, round).Found?
        && var c := CertificateOf(arn, env, round).certificate;
           && (c.status == "PENDING_VALIDATION" || c.status == "ISSUED")
           && GetValidationOption(c, requested).Some?
           && GetValidationOption(c, requested).value.validationMethod == Some("DNS")
           && GetValidationOption(c, requested).value.resourceRecord == (if r.Record? then Some(r.record) else None)
    ensures CertificateOf(arn, env, round).Found? &&
            GetValidationOption(CertificateOf(arn, env, round).certificate, requested).None? ==>
      LookStep(arn, requested, env, round) == StepFailed(NoOptionReason)
    ensures CertificateOf(arn, env, round).Found? &&
            GetValidationOption(CertificateOf(arn, env, round).certificate, requested).Some? &&
            GetValidationOption(CertificateOf(arn, env, round).certificate, requested).value.validationMethod != Some("DNS") ==>
      LookStep(arn, requested, env, round) ==
        StepFailed(MethodReason(GetValidationOption(CertificateOf(arn, env, round).certificate, requested).value.validationMethod))
  {
  }

  // ---------------------------------------------------------------------
  // Polling for the record

  datatype PollResult =
    | RecordFound(record: ResourceRecord)
    | PollFailed(message: string)
    | PollEscaped(message: string)
    | PollTimedOut

  /** The lookups that fit in the invocation's time, in order. */
  function Lookups(arn: Json, requested: Json, env: Env): (steps: seq<Step>)
    ensures |steps| == env.pollRounds
    ensures forall k :: 0 <= k < |steps| ==> steps[k] == LookStep(arn, requested, env, k)
  {
    seq(env.pollRounds, (k: int) requires 0 <= k => LookStep(arn, requested, env, k))
  }

  /** The poll over a sequence of lookups: until a record appears, something fails, or the lookups run out. */
  function PollSteps(steps: seq<Step>): PollResult {
    if steps == [] then PollTimedOut
    else
      match steps[0]
      case Record(rr) => RecordFound(rr)
      case NoRecordYet => PollSteps(steps[1..])
      case StepFailed(m) => PollFailed(m)
      case StepEscaped(m) => PollEscaped(m)
  }

  /** The `while not dns_record` loop, run for as long as the invocation may. */
  function Poll(arn: Json, requested: Json, env: Env): PollResult {
    PollSteps(Lookups(arn, requested, env))
  }

  /** A found record is the one of the first lookup that had one, and every lookup before it had none. */
  lemma {:induction false} PollFindsFirstRecord(steps: seq<Step>, rr: ResourceRecord)
    requires PollSteps(steps) == RecordFound(rr)
    ensures exists k :: (0 <= k < |steps| && steps[k] == Record(rr) && forall j :: 0 <= j < k ==> steps[j] == NoRecordYet)
  {
    if steps[0].NoRecordYet? {
      PollFindsFirstRecord(steps[1..], rr);
      var k :| 0 <= k < |steps[1..]| && steps[1..][k] == Record(rr) && forall j :: 0 <= j < k ==> steps[1..][j] == NoRecordYet;
      assert steps[k + 1] == Record(rr);
      assert forall j :: 0 <= j < k + 1 ==> steps[j] == NoRecordYet by {
        forall j | 0 <= j < k + 1 ensures steps[j] == NoRecordYet {
          if j > 0 { assert steps[j] == steps[1..][j - 1]; }
        }
      }
    } else {
      assert steps[0] == Record(rr);
    }
  }

  /** Time runs out only when every lookup that fitted found the option without a record. */
  lemma {:induction false} PollTimesOut(steps: seq<Step>)
    ensures PollSteps(steps) == PollTimedOut <==> forall j :: 0 <= j < |steps| ==> steps[j] == NoRecordYet
  {
    if steps != [] {
      PollTimesOut(steps[1..]);
      assert forall j :: 1 <= j < |steps| ==> steps[j] == steps[1..][j - 1];
    }
  }

  /** A failed lookup ends the poll at once, whatever later lookups would have shown. */
  lemma PollStopsAtFailure(arn: Json, requested: Json, env: Env, m: string)
    requires env.pollRounds > 0 && LookStep(arn, requested, env, 0) == StepFailed(m)
    ensures Poll(arn, requested, env) == PollFailed(m)
  {
  }

  /** The attributes of the resource: the record as a dict. */
  function RecordData(rr: ResourceRecord): Object {
    map["Name" := JStr(rr.name), "Type" := JStr(rr.recordType), "Value" := JStr(rr.value)]
  }

  /** The response once the poll has ended as it did. */
  function PolledResponse(result: PollResult, response: Object, creating: bool): Object {
    match result
    case RecordFound(rr) => response["Data" := JObj(RecordData(rr))]["PhysicalResourceId" := JStr(rr.name)]
    case PollFailed(m) =>
      var failed := response["Status" := JStr("FAILED")]["Reason" := JStr(m)];
      if creating then failed["PhysicalResourceId" := JStr("could-not-create")] else failed
    case _ => response
  }

  /**
   * `poll_for_resource_record`, from state `s` to state `t`: look until the
   * option carries a record; the record becomes Data and its name the
   * physical id. A failed precondition fails the resource, and on Create
   * marks the id "could-not-create". Only the response changes.
   */
  predicate Polled(env: Env, s: Snapshot, t: Snapshot, outcome: Outcome) {
    var props := PropertiesOf(s.request);
    var result := Poll(Lookup(props, "CertificateArn", JNull), Lookup(props, "DomainName", JNull), env);
    && t == s.(response := PolledResponse(result, s.response, IsType(s.request, "Create")))
    && outcome == match result
       case PollEscaped(m) => Raised(m)
       case PollTimedOut => TimedOut
       case _ => Returned
  }

  method PollForResourceRecord(p: Provider, env: Env) returns (outcome: Outcome)
    requires p.Valid()
    modifies p`response
    ensures p.Valid()
    ensures Polled(env, old(p.Current()), p.Current(), outcome)
  {
    var arn := p.Get("CertificateArn", JNull);
    var requested := p.Get("DomainName", JNull);
    var result := LookForRecord(arn, requested, env);
    match result {
      case RecordFound(rr) =>
        p.response := p.response["Data" := JObj(RecordData(rr))];
        p.SetPhysicalResourceId(JStr(rr.name));
        outcome := Returned;
      case PollFailed(m) =>
        p.Fail(m);
        if p.IsRequestType("Create") {
          p.SetPhysicalResourceId(JStr("could-not-create"));
        }
        outcome := Returned;
      case PollEscaped(m) =>
        outcome := Raised(m);
      case PollTimedOut =>
        outcome := TimedOut;
    }
  }

  /** The polling loop: one lookup per round until one of them settles the poll, or the rounds run out. */
  method LookForRecord(arn: Json, requested: Json, env: Env) returns (result: PollResult)
    ensures result == Poll(arn, requested, env)
  {
    ghost var steps := Lookups(arn, requested, env);
    var round := 0;
    while round < env.pollRounds
      invariant round <= env.pollRounds
      invariant PollSteps(steps[round..]) == PollSteps(steps)
    {
      var step := LookStep(arn, requested, env, round);
      assert steps[round..][0] == step && steps[round..][1..] == steps[round + 1..];
      match step {
        case Record(rr) => return RecordFound(rr);
        case StepFailed(m) => return PollFailed(m);
        case StepEscaped(m) => return PollEscaped(m);
        case NoRecordYet =>
      }
      round := round + 1;
    }
    assert steps[round..] == [];
    result := PollTimedOut;
  }

  method Create(p: Provider, env: Env) returns (outcome: Outcome)
    requires p.Valid()
    modifies p`response
    ensures p.Valid()
    ensures Polled(env, old(p.Current()), p.Current(), outcome)
  {
    outcome := PollForResourceRecord(p, env);
  }

  method Update(p: Provider, env: Env) returns (outcome: Outcome)
    requires p.Valid()
    modifies p`response
    ensures p.Valid()
    ensures Polled(env, old(p.Current()), p.Current(), outcome)
  {
    outcome := PollForResourceRecord(p, env);
  }

  /** `delete` does nothing. */
  method Delete(p: Provider) returns (outcome: Outcome)
    ensures outcome == Returned
  {
    outcome := Returned;
  }
}
