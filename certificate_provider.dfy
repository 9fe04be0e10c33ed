/**
 * The certificate provider (resource type Custom::Certificate): requests a
 * certificate on Create, decides on Update from the properties that changed
 * whether to request a new certificate, update its options, refuse, or do
 * nothing, and on Delete deletes the certificate when the physical id is a
 * certificate manager ARN.
 */
module CertificateProvider {
  import opened Wrappers
  import opened PyStrings
  import opened Json
  import opened DefaultInjectingValidator
  import opened Remote
  import opened ResourceProvider

  const ClassName: string := "CertificateProvider"

  /** The schema of the ResourceProperties: DomainName and ValidationMethod are required, and the method must be "DNS". */
  const CertificateSchema: Schema :=
    Schema(
      ["DomainName", "ValidationMethod"],
      [ PropertySchema("DomainName", Some(StringType), None, None, None),
        PropertySchema("ValidationMethod", Some(StringType), Some([JStr("DNS")]), None, None)])

  method NewProvider() returns (p: Provider)
    ensures fresh(p) && p.kind == CertificateKind && p.className == ClassName && p.requestSchema == CertificateSchema
    ensures p.calls == [] && p.sent == [] && p.hooksRun == [] && !p.asynchronous
  {
    p := new Provider(CertificateKind, ClassName, CertificateSchema);
  }

  // ---------------------------------------------------------------------
  // Requesting a certificate

  /**
   * The arguments of the certificate request: the properties without Region
   * and ServiceToken, with an IdempotencyToken that defaults to the logical
   * resource id.
   */
  function RequestArguments(properties: Object, logicalId: Json): (args: Object)
    ensures args.Keys == properties.Keys - {"Region", "ServiceToken"} + {"IdempotencyToken"}
    ensures forall k :: k in properties && k != "Region" && k != "ServiceToken" ==> args[k] == properties[k]
    ensures "IdempotencyToken" !in properties ==> args["IdempotencyToken"] == logicalId
  {
    map k | k in properties.Keys - {"Region", "ServiceToken"} + {"IdempotencyToken"} ::
      if k in properties then properties[k] else logicalId
  }

  /** The region the certificate manager client is created for: the Region property, `None` when absent. */
  function Region(properties: Object): Json {
    Lookup(properties, "Region", JNull)
  }

  /**
   * `request_certificate`: a copy of the properties is stripped and
   * completed, the certificate is requested, and its ARN becomes the
   * physical id. A client error is handed back to the caller; the request's
   * own properties are left as they were.
   */
  method RequestCertificate(p: Provider, env: Env) returns (error: Option<string>)
    requires p.Valid()
    modifies p`response, p`calls
    ensures p.Valid()
    ensures var region := Region(old(p.Properties()));
            var args := RequestArguments(old(p.Properties()), old(p.request)["LogicalResourceId"]);
            && p.calls == old(p.calls) + [RequestCertificateCall(region, args)]
            && match env.requestCertificate(region, args)
               case Ok(arn) => error.None? && p.response == old(p.response)["PhysicalResourceId" := JStr(arn)]
               case ClientError(m) => error == Some(m) && p.response == old(p.response)
  {
    var arguments := p.Properties();
    var region := Lookup(arguments, "Region", JNull);
    arguments := arguments - {"Region"};
    if "ServiceToken" in arguments {
      arguments := arguments - {"ServiceToken"};
    }
    if "IdempotencyToken" !in arguments {
      arguments := arguments["IdempotencyToken" := p.request["LogicalResourceId"]];
    }
    assert arguments == RequestArguments(p.Properties(), p.request["LogicalResourceId"]);
    p.calls := p.calls + [RequestCertificateCall(region, arguments)];
    match env.requestCertificate(region, arguments) {
      case Ok(arn) =>
        p.SetPhysicalResourceId(JStr(arn));
        error := None;
      case ClientError(m) =>
        error := Some(m);
    }
  }

  /**
   * `create`, from state `s` to state `t`: one certificate request, whose
   * ARN becomes the physical id; a client error fails the resource and
   * marks the id "failed-to-create".
   */
  predicate Created(env: Env, s: Snapshot, t: Snapshot, outcome: Outcome) {
    var region := Region(PropertiesOf(s.request));
    var args := RequestArguments(PropertiesOf(s.request), Lookup(s.request, "LogicalResourceId", JNull));
    && outcome == Returned
    && t.request == s.request && t.asynchronous == s.asynchronous
    && t.calls == s.calls + [RequestCertificateCall(region, args)]
    && t.response == match env.requestCertificate(region, args)
       case Ok(arn) => s.response["PhysicalResourceId" := JStr(arn)]
       case ClientError(m) =>
         s.response["Status" := JStr("FAILED")]["Reason" := JStr(m)]["PhysicalResourceId" := JStr("failed-to-create")]
  }

  method Create(p: Provider, env: Env) returns (outcome: Outcome)
    requires p.Valid()
    modifies p`response, p`calls
    ensures p.Valid()
    ensures Created(env, old(p.Current()), p.Current(), outcome)
  {
    var error := RequestCertificate(p, env);
    if error.Some? {
      p.Fail(error.value);
      p.SetPhysicalResourceId(JStr("failed-to-create"));
    }
    outcome := Returned;
  }

  // ---------------------------------------------------------------------
  // Change detection

  /** The old names: those of OldResourceProperties, or the new names when the request has none. */
  function OldNames(current: Object, previous: Option<Object>): set<string> {
    if previous.Some? then previous.value.Keys else current.Keys
  }

  /** `old_properties`: empty when the request has none. */
  function OldMap(previous: Option<Object>): Object {
    if previous.Some? then previous.value else map[]
  }

  /** The names in exactly one of the new and the old properties. */
  function Added(current: Object, previous: Option<Object>): set<string> {
    (current.Keys - OldNames(current, previous)) + (OldNames(current, previous) - current.Keys)
  }

  /**
   * The names other than ServiceToken whose new value (`None` when absent)
   * differs from the old one, where a name without an old value counts as
   * unchanged.
   */
  function ValueChanged(current: Object, previous: Option<Object>): set<string> {
    set n | n in (current.Keys + OldNames(current, previous)) - {"ServiceToken"} && IsValueChange(current, previous, n)
  }

  predicate IsValueChange(current: Object, previous: Option<Object>, n: string) {
    Lookup(current, n, JNull) != Lookup(OldMap(previous), n, Lookup(current, n, JNull))
  }

  /** The changed list, up to order: the first part and the second part together. */
  function Changes(current: Object, previous: Option<Object>): multiset<string> {
    multiset(Added(current, previous)) + multiset(ValueChanged(current, previous))
  }

  /**
   * A changed list as `update` builds it: first the names in exactly one of
   * the new and the old properties, then each name other than ServiceToken
   * whose value changed. Within each part the order is open, as the
   * iteration over a Python set is.
   */
  predicate ChangeList(changed: seq<string>, current: Object, previous: Option<Object>) {
    exists k :: 0 <= k <= |changed|
      && multiset(changed[..k]) == multiset(Added(current, previous))
      && multiset(changed[k..]) == multiset(ValueChanged(current, previous))
  }

  /** Both parts together are the changes counted with multiplicity. */
  lemma ChangeListCounts(changed: seq<string>, current: Object, previous: Option<Object>)
    requires ChangeList(changed, current, previous)
    ensures multiset(changed) == Changes(current, previous)
  {
    var k :| 0 <= k <= |changed|
      && multiset(changed[..k]) == multiset(Added(current, previous))
      && multiset(changed[k..]) == multiset(ValueChanged(current, previous));
    SplitCounts(changed, k);
  }

  lemma SplitCounts(s: seq<string>, k: nat)
    requires k <= |s|
    ensures multiset(s) == multiset(s[..k]) + multiset(s[k..])
  {
    assert s == s[..k] + s[k..];
  }

  /** The changed list of `update`. */
  method ChangedProperties(current: Object, previous: Option<Object>) returns (changed: seq<string>)
    ensures ChangeList(changed, current, previous)
    ensures multiset(changed) == Changes(current, previous)
  {
    var oldNames := if previous.Some? then previous.value.Keys else current.Keys;
    var added := ListNames((current.Keys - oldNames) + (oldNames - current.Keys));
    var names := (current.Keys + oldNames) - {"ServiceToken"};
    changed := AppendValueChanges(added, current, previous, names);
    assert (set n | n in names && IsValueChange(current, previous, n)) == ValueChanged(current, previous);
    assert changed[..|added|] == added;
    ChangeListCounts(changed, current, previous);
  }

  /** `list(names)`: the names of a set in some order, each once. */
  method ListNames(names: set<string>) returns (listed: seq<string>)
    ensures multiset(listed) == multiset(names)
  {
    listed := [];
    var todo := names;
    while todo != {}
      invariant todo <= names
      invariant multiset(listed) == multiset(names - todo)
      decreases |todo|
    {
      var n :| n in todo;
      AddOne(names - todo, n);
      assert names - (todo - {n}) == (names - todo) + {n};
      listed := listed + [n];
      todo := todo - {n};
    }
  }

  /** The second loop of the change detection: append each of `names` whose value changed. */
  method AppendValueChanges(changed: seq<string>, current: Object, previous: Option<Object>, names: set<string>)
      returns (extended: seq<string>)
    ensures |changed| <= |extended| && extended[..|changed|] == changed
    ensures multiset(extended[|changed|..]) == multiset(set n | n in names && IsValueChange(current, previous, n))
  {
    extended := changed;
    var todo := names;
    ghost var found: set<string> := {};
    while todo != {}
      invariant todo <= names
      invariant forall m :: m in found <==> m in names && m !in todo && IsValueChange(current, previous, m)
      invariant |changed| <= |extended| && extended[..|changed|] == changed
      invariant multiset(extended[|changed|..]) == multiset(found)
      decreases |todo|
    {
      var n :| n in todo;
      if Lookup(current, n, JNull) != Lookup(if previous.Some? then previous.value else map[], n, Lookup(current, n, JNull)) {
        assert IsValueChange(current, previous, n);
        AddOne(found, n);
        assert (extended + [n])[|changed|..] == extended[|changed|..] + [n];
        extended := extended + [n];
        found := found + {n};
      } else {
        assert !IsValueChange(current, previous, n);
      }
      todo := todo - {n};
    }
    assert found == set n | n in names && IsValueChange(current, previous, n);
  }

  lemma AddOne(names: set<string>, n: string)
    requires n !in names
    ensures multiset(names + {n}) == multiset(names) + multiset{n}
  {
  }

  /** Without OldResourceProperties nothing has changed. */
  lemma NoOldNoChanges(current: Object)
    ensures Changes(current, None) == multiset{}
  {
    assert Added(current, None) == {};
    assert ValueChanged(current, None) == {};
  }

  /** How often a name occurs in the changed list. */
  lemma ChangeCount(current: Object, previous: Object, n: string)
    ensures n in current && n !in previous ==> Changes(current, Some(previous))[n] == 1
    ensures n !in current && n in previous ==> Changes(current, Some(previous))[n] == if n == "ServiceToken" || previous[n] == JNull then 1 else 2
    ensures n in current && n in previous ==> Changes(current, Some(previous))[n] == if n != "ServiceToken" && current[n] != previous[n] then 1 else 0
    ensures n !in current && n !in previous ==> Changes(current, Some(previous))[n] == 0
  {
    assert n in Added(current, Some(previous)) <==> (n in current) != (n in previous);
    assert n in ValueChanged(current, Some(previous)) <==>
      n != "ServiceToken" && (n in current || n in previous) && IsValueChange(current, Some(previous), n);
  }

  // ---------------------------------------------------------------------
  // The update decision

  datatype Decision = Recreate | UpdateOptions | Reject | NothingToChange

  /** The branch `update` takes for the changed list. */
  function Decide(changed: seq<string>): (d: Decision)
    ensures d == Recreate <==> "DomainName" in changed
    ensures d == UpdateOptions <==> changed == ["Options"]
    ensures d == NothingToChange <==> changed == []
  {
    if "DomainName" in changed then Recreate
    else if |changed| == 1 && changed[0] == "Options" then UpdateOptions
    else if changed != [] then Reject
    else NothingToChange
  }

  /** The decision as a function of the changed names counted with multiplicity. */
  function DecisionOf(changes: multiset<string>): Decision {
    if "DomainName" in changes then Recreate
    else if changes == multiset{"Options"} then UpdateOptions
    else if changes == multiset{} then NothingToChange
    else Reject
  }

  /** The decision does not depend on the order in which the changed names were found. */
  lemma DecideIgnoresOrder(changed: seq<string>)
    ensures Decide(changed) == DecisionOf(multiset(changed))
  {
    if multiset(changed) == multiset{"Options"} {
      assert |changed| == 1;
      assert changed[0] in multiset(changed);
    }
  }

  /** A single changed value other than DomainName, Options or ServiceToken is refused. */
  lemma OtherChangeRejected(current: Object, previous: Object, n: string)
    requires n in current && n in previous && current[n] != previous[n]
    requires n != "DomainName" && n != "Options" && n != "ServiceToken"
    requires "DomainName" in current && "DomainName" in previous && current["DomainName"] == previous["DomainName"]
    ensures DecisionOf(Changes(current, Some(previous))) == Reject
  {
    ChangeCount(current, previous, n);
    ChangeCount(current, previous, "DomainName");
    assert Changes(current, Some(previous))[n] == 1;
    assert Changes(current, Some(previous)) != multiset{"Options"};
  }

  /** The fixed start of the reason a refused change fails with. */
  const RejectPrefix: string := "You can only change the \"Options\" and \"DomainName\" of a certificate, you tried to change "

  /** The reason a refused change fails with: the changed names, in the order of the changed list. */
  function RejectReason(changed: seq<string>): string {
    RejectPrefix + Join(changed, ", ")
  }

  /** A new certificate requested for changed properties; a client error fails the resource, keeping the old id. */
  predicate Recreated(env: Env, s: Snapshot, t: Snapshot) {
    var props := PropertiesOf(s.request);
    var region := Region(props);
    var args := RequestArguments(props, Lookup(s.request, "LogicalResourceId", JNull));
    && t.request == s.request && t.asynchronous == s.asynchronous
    && t.calls == s.calls + [RequestCertificateCall(region, args)]
    && t.response == (match env.requestCertificate(region, args)
       case Ok(arn) => s.response["PhysicalResourceId" := JStr(arn)]
       case ClientError(m) => s.response["Status" := JStr("FAILED")]["Reason" := JStr(m)])
  }

  /** The options of the certificate named by the physical id updated; a client error fails the resource. */
  predicate OptionsUpdated(env: Env, s: Snapshot, t: Snapshot) {
    var props := PropertiesOf(s.request);
    var region := Region(props);
    var pid := Lookup(s.response, "PhysicalResourceId", JNull);
    var options := Lookup(props, "Options", JNull);
    && t.request == s.request && t.asynchronous == s.asynchronous
    && t.calls == s.calls + [UpdateOptionsCall(region, pid, options)]
    && t.response == (match env.updateCertificateOptions(region, pid, options)
       case Ok(_) => s.response
       case ClientError(m) => s.response["Status" := JStr("FAILED")]["Reason" := JStr(m)])
  }

  /** The change refused: the resource fails with the reason naming the changed list; no call is made. */
  predicate Rejected(changed: seq<string>, s: Snapshot, t: Snapshot) {
    t == s.(response := s.response["Status" := JStr("FAILED")]["Reason" := JStr(RejectReason(changed))])
  }

  /** Nothing to change: the resource succeeds with that as its Reason; no call is made. */
  predicate NothingChanged(s: Snapshot, t: Snapshot) {
    t == s.(response := s.response["Status" := JStr("SUCCESS")]["Reason" := JStr("nothing to change")])
  }

  /** The outcome of the Update decision for one changed list, from state `s` to state `t`. */
  predicate UpdatedBy(env: Env, changed: seq<string>, s: Snapshot, t: Snapshot) {
    match Decide(changed)
    case Recreate => Recreated(env, s, t)
    case UpdateOptions => OptionsUpdated(env, s, t)
    case Reject => Rejected(changed, s, t)
    case NothingToChange => NothingChanged(s, t)
  }

  /**
   * `update`, from state `s` to state `t`. OldResourceProperties that is
   * not a dict makes `.keys()` raise; otherwise a changed list as the code
   * builds it decides the branch.
   */
  ghost predicate Updated(env: Env, s: Snapshot, t: Snapshot, outcome: Outcome) {
    if "OldResourceProperties" in s.request && !s.request["OldResourceProperties"].JObj? then
      outcome == Raised(AttributeErrorMessage(s.request["OldResourceProperties"], "keys")) && t == s
    else
      var previous := if "OldResourceProperties" in s.request then Some(s.request["OldResourceProperties"].fields) else None;
      && outcome == Returned
      && exists changed: seq<string> :: ChangeList(changed, PropertiesOf(s.request), previous) && UpdatedBy(env, changed, s, t)
  }

  method Update(p: Provider, env: Env) returns (outcome: Outcome)
    requires p.Valid()
    modifies p`response, p`calls
    ensures p.Valid()
    ensures Updated(env, old(p.Current()), p.Current(), outcome)
  {
    if "OldResourceProperties" in p.request && !p.request["OldResourceProperties"].JObj? {
      return Raised(AttributeErrorMessage(p.request["OldResourceProperties"], "keys"));
    }
    var current := p.Properties();
    var oldProps := if "OldResourceProperties" in p.request then Some(p.OldProperties()) else None;
    ghost var s := p.Current();
    var changed := ChangedProperties(current, oldProps);
    ApplyDecision(p, env, changed);
    assert ChangeList(changed, PropertiesOf(s.request), oldProps) && UpdatedBy(env, changed, s, p.Current());
    outcome := Returned;
  }

  /** The four branches of `update` for a changed list. */
  method ApplyDecision(p: Provider, env: Env, changed: seq<string>)
    requires p.Valid()
    modifies p`response, p`calls
    ensures p.Valid()
    ensures UpdatedBy(env, changed, old(p.Current()), p.Current())
  {
    match Decide(changed) {
      case Recreate =>
        RequestNewCertificate(p, env);
      case UpdateOptions =>
        UpdateCertificateOptions(p, env);
      case Reject =>
        RejectChange(p, changed);
      case NothingToChange =>
        ReportNothingToChange(p);
    }
  }

  /** The Reject branch. */
  method RejectChange(p: Provider, changed: seq<string>)
    requires p.Valid()
    modifies p`response
    ensures p.Valid()
    ensures Rejected(changed, old(p.Current()), p.Current())
  {
    p.Fail(RejectReason(changed));
  }

  /** The NothingToChange branch. */
  method ReportNothingToChange(p: Provider)
    requires p.Valid()
    modifies p`response
    ensures p.Valid()
    ensures NothingChanged(old(p.Current()), p.Current())
  {
    p.Success(Some("nothing to change"));
  }

  /** The Recreate branch: a new certificate; its ARN replaces the physical id. */
  method RequestNewCertificate(p: Provider, env: Env)
    requires p.Valid()
    modifies p`response, p`calls
    ensures p.Valid()
    ensures Recreated(env, old(p.Current()), p.Current())
  {
    var error := RequestCertificate(p, env);
    if error.Some? {
      p.Fail(error.value);
    }
  }

  /** The UpdateOptions branch: only the certificate's options change. */
  method UpdateCertificateOptions(p: Provider, env: Env)
    requires p.Valid()
    modifies p`response, p`calls
    ensures p.Valid()
    ensures OptionsUpdated(env, old(p.Current()), p.Current())
  {
    var region := p.Get("Region", JNull);
    var pid := p.PhysicalResourceId();
    var options := p.Get("Options", JNull);
    p.calls := p.calls + [UpdateOptionsCall(region, pid, options)];
    match env.updateCertificateOptions(region, pid, options) {
      case Ok(_) =>
      case ClientError(m) => p.Fail(m);
    }
  }

  // ---------------------------------------------------------------------
  // Deletion

  /** The physical id names a certificate manager certificate. */
  predicate IsAcmArn(id: Json) {
    id.JStr? && StartsWith(id.s, "arn:aws:acm:")
  }

  /** The fixed start of the Reason of a failed delete call, which still succeeds. */
  const IgnoredDeleteFailure: string := "Ignore failure to delete certificate "

  /**
   * `delete`, from state `s` to state `t`: only a physical id that is a
   * certificate manager ARN leads to a delete call, and a failing call is
   * reported as a success. A truthy id that is not a string makes
   * `startswith` raise.
   */
  predicate Deleted(env: Env, s: Snapshot, t: Snapshot, outcome: Outcome) {
    var id := Lookup(s.response, "PhysicalResourceId", JNull);
    if !Truthy(id) || (id.JStr? && !IsAcmArn(id)) then
      outcome == Returned && t == s
    else if !id.JStr? then
      outcome == Raised(AttributeErrorMessage(id, "startswith")) && t == s
    else
      var region := Region(PropertiesOf(s.request));
      && outcome == Returned
      && t.request == s.request && t.asynchronous == s.asynchronous
      && t.calls == s.calls + [DeleteCertificateCall(region, id.s)]
      && t.response == match env.deleteCertificate(region, id.s)
         case Ok(_) => s.response
         case ClientError(m) => s.response["Status" := JStr("SUCCESS")]["Reason" := JStr(IgnoredDeleteFailure + m)]
  }

  method Delete(p: Provider, env: Env) returns (outcome: Outcome)
    requires p.Valid()
    modifies p`response, p`calls
    ensures p.Valid()
    ensures Deleted(env, old(p.Current()), p.Current(), outcome)
    ensures old(p.Status()) == "SUCCESS" ==> p.Status() == "SUCCESS"
  {
    var id := p.PhysicalResourceId();
    if !Truthy(id) {
      return Returned;
    }
    if !id.JStr? {
      return Raised(AttributeErrorMessage(id, "startswith"));
    }
    if !StartsWith(id.s, "arn:aws:acm:") {
      return Returned;
    }
    var region := p.Get("Region", JNull);
    p.calls := p.calls + [DeleteCertificateCall(region, id.s)];
    match env.deleteCertificate(region, id.s) {
      case Ok(_) =>
      case ClientError(m) => p.Success(Some(IgnoredDeleteFailure + m));
    }
    outcome := Returned;
  }
}
