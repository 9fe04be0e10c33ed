# cfn-certificate-provider, modelled in Dafny

This project models the CloudFormation custom-resource providers for
certificate manager certificates. There are three providers:

- `Custom::Certificate` requests a certificate.
- `Custom::CertificateDNSRecord` waits for the DNS validation record of a
  certificate and returns it as attributes.
- `Custom::IssuedCertificate` waits until the certificate is issued. While
  it is pending, the provider re-invokes its own function asynchronously.

All three are built on a small resource-provider library. That library
validates the incoming CloudFormation request and the resource properties,
injecting schema defaults first. It dispatches exactly one lifecycle hook
(create, update or delete) and converts an escaping exception into a failed
response. It sends the response unless the provider has gone asynchronous.

## Structure of the model

- **JSON values.** Requests and responses are maps from strings to a
  JSON-like datatype (`Json.Json`). The datatype carries Python's
  truthiness, `repr`/`str` and its `AttributeError` text.
- **The provider.** It is one class, `ResourceProvider.Provider`, with the
  fields the library updates in place:
  - `request`, `response` and `asynchronous`;
  - the state-changing remote calls issued (`calls`);
  - the responses delivered to the ResponseURL (`sent`);
  - a ghost log of the hooks run.

  The three concrete providers are values of `ProviderKind`. Their hooks
  are module-level methods on a `Provider`. `Lifecycle` holds `execute` and
  `handle`, which dispatch on the kind, and `Dispatcher` holds the Lambda
  entry point.
- **Remote services.** The certificate manager and Lambda clients form an
  oracle, `Remote.Env`. Each call returns `Ok(value)` or
  `ClientError(message)`. The describe call is indexed by the poll round, so
  a record can appear later.
- **The schemas.** They are encoded with the keywords the repository uses:
  `required`, `type` string/object, `enum`, the `^https?://` pattern and
  `default`.
  - `DefaultInjectingValidator.Check` reports the first error, as
    jsonschema's `validate` raises it, and `Conforms` is its order-free
    meaning.
  - `Validation` adds the default injection of the `set_defaults`
    override. A missing required property stops validation before any
    default is injected, because `required` is checked before `properties`.
- **How a hook ends.** `ResourceProvider.Outcome` is `Returned`, or
  `Raised(message)` for an exception the hook does not handle, or
  `TimedOut` when the Lambda time limit cuts the invocation off.

Where the code's behaviour differs from the prose description of the
repository, the model follows the code. Three such cases:

- A certificate in a status other than PENDING_VALIDATION or ISSUED does not
  raise the precondition failure. The message's format string has two
  placeholders but gets one argument, so an `IndexError` escapes into
  `handle`'s exception path (`CertificateDnsRecordProvider.CertificateOf`).
  For the same reason, the issued-certificate provider's "incorrect status"
  branch is never reached.
- The reason for a request that fails the CloudFormation request schema is
  always `invalid CloudFormation Request received: []`. This is because
  `str(e.context)` of a top-level jsonschema error is an empty list.
- The ResponseURL pattern `^https?://` is checked, but `"format": "uri"` is
  not. jsonschema checks formats only when it is given a format checker,
  and the code gives it none.

## Model

| member | source | states |
|---|---|---|
| Json.Repr | function/cfn_resource_provider/resource_provider.py:246-247 | `repr` as jsonschema's messages print a value: `None`, `True`/`False`, decimal integers, lists item by item, strings quoted and escaped as QuoteFor, ReprPlainString and ReprSingleQuoted state (a dict is abbreviated, see "Left out") |
| Json.Lookup | function/cfn_resource_provider/resource_provider.py:66-70 | `dict.get(key, default)`: the entry when the key is present, else the default |
| Json.QuoteFor | function/cfn_resource_provider/resource_provider.py:246-247 | `repr` puts a string in double quotes exactly when it holds a single quote and no double quote, and in single quotes otherwise |
| Json.PlainEscape | function/cfn_resource_provider/resource_provider.py:246-247 | escaping leaves a string alone when it holds no quote, backslash, newline, return or tab |
| Json.ReprPlainString | function/cfn_resource_provider/resource_provider.py:246-247 | a string with no single quote, backslash, newline, return or tab prints as itself between single quotes |
| Json.ReprSingleQuoted | function/cfn_resource_provider/resource_provider.py:246-247 | a string holding a single quote and no double quote prints between double quotes, its single quotes left unescaped |
| ResourceProvider.IsInt | function/cfn_resource_provider/resource_provider.py:14-20 | `is_int`: one leading sign is skipped, and the rest must pass `isdigit`; IsIntExactly states which strings pass |
| ResourceProvider.IsIntExactly | function/cfn_resource_provider/resource_provider.py:14-20 | `is_int` holds exactly for non-empty digit strings, optionally after one sign that is followed by at least one digit |
| ResourceProvider.IsIntExamples | function/cfn_resource_provider/resource_provider.py:14-20 | `""`, `"-"`, `"+"`, `"1.0"`, `"--1"` and `"1-"` are rejected; `"0"`, `"-12"`, `"+7"` and `"007"` are accepted |
| ResourceProvider.IntValue | function/cfn_resource_provider/resource_provider.py:231-232 | `int(v)` of a string that passes `is_int`: the sign applied to the value of the digits; IntRoundTrip states that it reads printed integers back |
| ResourceProvider.IntRoundTrip | function/cfn_resource_provider/resource_provider.py:231-232 | every printed integer passes `is_int`, and `int()` reads it back as the same integer |
| ResourceProvider.ConvertValue | function/cfn_resource_provider/resource_provider.py:223-234 | the conversion of one property value; ConvertedValue states its cases |
| ResourceProvider.Converted | function/cfn_resource_provider/resource_provider.py:218-234 | the dict as the conversion leaves it, value by value; ConvertedValue and ConvertIdempotent state what it is |
| ResourceProvider.HeuristicConvertPropertyTypes | function/cfn_resource_provider/resource_provider.py:218-234 | the loop over the names, recursing into nested dicts, yields the value-by-value conversion `Converted` |
| ResourceProvider.ConvertedValue | function/cfn_resource_provider/resource_provider.py:222-234 | the key set is kept; `"true"` and `"false"` become booleans; `is_int` strings become integers; other strings and non-string, non-dict values stay; dicts are converted recursively |
| ResourceProvider.ConvertIdempotent | function/cfn_resource_provider/resource_provider.py:218-234 | converting an already converted dict changes nothing |
| ResourceProvider.ConvertValueIdempotent | function/cfn_resource_provider/resource_provider.py:222-234 | converting a converted value again changes nothing |
| ResourceProvider.ValidCfnRequestShape | function/cfn_resource_provider/resource_provider.py:375-389 | a request that passes the request schema has a RequestType among Create/Update/Delete, string ids and type, a dict of properties and an http(s) ResponseURL |
| ResourceProvider.HasResponseUrl | function/cfn_resource_provider/resource_provider.py:348 | a request the request schema accepts has the ResponseURL that `send_response` reads |
| ResourceProvider.ValidCfnResponseFields | function/cfn_resource_provider/resource_provider.py:359-370 | a response the response schema accepts has the required fields with their declared types |
| ResourceProvider.CfnResponseFieldsValid | function/cfn_resource_provider/resource_provider.py:359-370 | the converse: such fields are enough for the response schema |
| ResourceProvider.CustomCfnResourceName | function/cfn_resource_provider/resource_provider.py:41-43 | `Custom::` followed by the class name with every `Provider` removed; ProviderTypeName gives its value |
| ResourceProvider.ProviderTypeName | function/cfn_resource_provider/resource_provider.py:41-43 | a class name `<stem>Provider`, where the stem has no `P`, gives the type `Custom::<stem>` |
| ResourceProvider.CertificateSpelling | function/cfn_resource_provider/resource_provider.py:41-43 | `CertificateProvider` is `Certificate` followed by `Provider`, with no other `P` |
| ResourceProvider.DnsRecordSpelling | function/cfn_resource_provider/resource_provider.py:41-43 | `CertificateDNSRecordProvider` is `CertificateDNSRecord` followed by `Provider`, with no other `P` |
| ResourceProvider.IssuedCertificateSpelling | function/cfn_resource_provider/resource_provider.py:41-43 | `IssuedCertificateProvider` is `IssuedCertificate` followed by `Provider`, with no other `P` |
| ResourceProvider.CertificateTypeName | function/cfn_resource_provider/resource_provider.py:41-43 | CertificateProvider supports `Custom::Certificate` |
| ResourceProvider.DnsRecordTypeName | function/cfn_resource_provider/resource_provider.py:41-43 | CertificateDNSRecordProvider supports `Custom::CertificateDNSRecord` |
| ResourceProvider.IssuedCertificateTypeName | function/cfn_resource_provider/resource_provider.py:41-43 | IssuedCertificateProvider supports `Custom::IssuedCertificate` |
| ResourceProvider.InitialResponse | function/cfn_resource_provider/resource_provider.py:55-64 | the starting response: SUCCESS, empty Reason and Data, the three ids copied, and PhysicalResourceId present exactly when the request has one, with its value |
| ResourceProvider.InitialResponseIsValid | function/cfn_resource_provider/resource_provider.py:48-64 | a request that passes the request schema yields a starting response that passes the response schema |
| ResourceProvider.Provider.constructor | function/cfn_resource_provider/resource_provider.py:28-39 | a new provider has no request or response, is not asynchronous, and has made no call, sent nothing and run no hook |
| ResourceProvider.Provider.PhysicalResourceId | function/cfn_resource_provider/resource_provider.py:120-125 | the response's id, `None` when it has none |
| ResourceProvider.Provider.Properties | function/cfn_resource_provider/resource_provider.py:78-83 | the request's ResourceProperties dict |
| ResourceProvider.Provider.OldProperties | function/cfn_resource_provider/resource_provider.py:85-90 | OldResourceProperties, empty when the request has none |
| ResourceProvider.Provider.Get | function/cfn_resource_provider/resource_provider.py:66-70 | the property when present, else the default |
| ResourceProvider.Provider.GetOld | function/cfn_resource_provider/resource_provider.py:72-76 | the old property when present, else the default |
| ResourceProvider.Provider.GetAttribute | function/cfn_resource_provider/resource_provider.py:267-271 | the Data entry when present, else `None` |
| ResourceProvider.Provider.IsSupportedResourceType | function/cfn_resource_provider/resource_provider.py:45-46 | the request's ResourceType is the provider's own `Custom::` name |
| ResourceProvider.Provider.SetRequest | function/cfn_resource_provider/resource_provider.py:48-64 | the request is taken, the response is the starting response and `asynchronous` is false |
| ResourceProvider.Provider.Success | function/cfn_resource_provider/resource_provider.py:273-279 | Status SUCCESS; the Reason changes only when one is given; Data and the physical id are kept |
| ResourceProvider.Provider.Fail | function/cfn_resource_provider/resource_provider.py:281-286 | Status FAILED with the given Reason; Data and the physical id are kept |
| ResourceProvider.Provider.SetAttribute | function/cfn_resource_provider/resource_provider.py:261-265 | only `Data[name]` changes; every other attribute reads as before |
| ResourceProvider.Provider.SetPhysicalResourceId | function/cfn_resource_provider/resource_provider.py:127-129 | only the response's PhysicalResourceId changes |
| ResourceProvider.Provider.SetProperties | src/issued_certificate_provider.py:83 | only the request's ResourceProperties changes |
| ResourceProvider.Provider.IsValidCfnRequest | function/cfn_resource_provider/resource_provider.py:184-194 | true exactly when the request schema holds; otherwise the response is failed with the fixed reason |
| ResourceProvider.Provider.IsValidRequest | function/cfn_resource_provider/resource_provider.py:236-248 | the properties are validated with default injection; the injected defaults stay in the request even when validation fails; a failure fails the response with `invalid resource properties: <message>` |
| ResourceProvider.Provider.IsSupportedRequest | function/cfn_resource_provider/resource_provider.py:250-259 | true exactly when the ResourceType is the provider's type; otherwise FAILED with `ResourceType X not supported by provider Y` |
| ResourceProvider.Provider.SendResponse | function/cfn_resource_provider/resource_provider.py:344-351 | the response is appended to the delivered responses; a request without ResponseURL raises the KeyError `'ResponseURL'` and nothing is delivered |
| DefaultInjectingValidator.ValueError | function/cfn_resource_provider/default_injecting_validator.py:17-18 | the error of one property value: none exactly when it satisfies its subschema; otherwise the "type" error first, the "enum" error only for a value of the right type, and the "pattern" error only for a value that passes both |
| DefaultInjectingValidator.FirstMissing | function/cfn_resource_provider/default_injecting_validator.py:28-32 | none exactly when every required name is present; otherwise a missing name such that every name before it in the list is present |
| DefaultInjectingValidator.FirstPropertyError | function/cfn_resource_provider/default_injecting_validator.py:17-18 | none exactly when every present property satisfies its subschema; otherwise the error of a present property such that every present property before it in the list satisfies its subschema |
| DefaultInjectingValidator.FirstFailing | function/cfn_resource_provider/default_injecting_validator.py:17-18 | an error is that of the first failing property: it belongs to a present property, and every present property before it satisfies its subschema |
| DefaultInjectingValidator.FirstFailingBehind | function/cfn_resource_provider/default_injecting_validator.py:17-18 | the first failing property of the list after a property that does not fail is the first failing property of the whole list |
| DefaultInjectingValidator.Check | function/cfn_resource_provider/resource_provider.py:190 | plain validation reports no error exactly when the instance conforms |
| DefaultInjectingValidator.WithDefaults | function/cfn_resource_provider/default_injecting_validator.py:13-15 | the keys become the old keys plus the defaulted names, and existing values are kept |
| DefaultInjectingValidator.FirstDefaultAppend | function/cfn_resource_provider/default_injecting_validator.py:13-15 | a later property's default counts only for a name no earlier property defaults |
| DefaultInjectingValidator.FirstDefaultDefined | function/cfn_resource_provider/default_injecting_validator.py:13-15 | every defaulted name has a first default |
| DefaultInjectingValidator.WithDefaultsFills | function/cfn_resource_provider/default_injecting_validator.py:13-15 | a defaulted name that was absent receives the first default declared for it |
| DefaultInjectingValidator.InjectDefaults | function/cfn_resource_provider/default_injecting_validator.py:12-15 | the loop adds every defaulted property that was absent, with its default; it overwrites nothing and adds no other key |
| DefaultInjectingValidator.Validation | function/cfn_resource_provider/default_injecting_validator.py:28-32 | no error exactly when the required names are present and the injected instance conforms; defaults are injected unless a required name is missing |
| DefaultInjectingValidator.Validate | function/cfn_resource_provider/default_injecting_validator.py:12-32 | running the injection loop and then validating gives the instance and error of `Validation` |
| DefaultInjectingValidator.DefaultsAreValidated | function/cfn_resource_provider/default_injecting_validator.py:12-18 | an injected default that breaks its own subschema is reported, and it stays in the instance |
| CertificateProvider.NewProvider | src/certificate_provider.py:25-39 | a fresh certificate provider with its class name and property schema, which has made no call and sent nothing |
| CertificateProvider.RequestArguments | src/certificate_provider.py:49-56 | the properties without Region and ServiceToken, with IdempotencyToken kept or set to the LogicalResourceId |
| CertificateProvider.RequestCertificate | src/certificate_provider.py:48-58 | one request call with the Region and those arguments; the returned ARN becomes the physical id; a client error is handed back; the request's properties are untouched |
| CertificateProvider.Created | src/certificate_provider.py:41-58 | the effect of create: one request call with the Region and the request arguments; its ARN becomes the physical id; a client error gives FAILED with its text and `failed-to-create` as the id; the request is untouched |
| CertificateProvider.Create | src/certificate_provider.py:41-46 | as `Created` states: one request call, made with the Region and the request arguments; its ARN becomes the physical id; a client error gives FAILED with its text and the id `failed-to-create`; the request is untouched |
| CertificateProvider.ChangeList | src/certificate_provider.py:61-71 | a changed list as `update` builds it: first the names in exactly one of new and old, then the names other than ServiceToken whose value changed, each part in any order |
| CertificateProvider.ChangeListCounts | src/certificate_provider.py:61-71 | any such list holds the changes with their multiplicity |
| CertificateProvider.SplitCounts | src/certificate_provider.py:68-71 | the names of a list are those of its two parts together |
| CertificateProvider.ChangedProperties | src/certificate_provider.py:61-71 | the list built is a `ChangeList`: its first part lists the added and removed names, and the rest the value changes (old defaulting to new); together they are the changes with multiplicity |
| CertificateProvider.ListNames | src/certificate_provider.py:68 | `list(set)` lists each name exactly once |
| CertificateProvider.AddOne | src/certificate_provider.py:68 | adding a new name to a set adds it once to its multiset |
| CertificateProvider.AppendValueChanges | src/certificate_provider.py:69-71 | the loop keeps the list it started from as a prefix and appends exactly the names whose value changed, in some order |
| CertificateProvider.NoOldNoChanges | src/certificate_provider.py:62-66 | without OldResourceProperties the changed list is empty |
| CertificateProvider.ChangeCount | src/certificate_provider.py:61-71 | a removed name other than ServiceToken with a non-null old value occurs twice, and otherwise once; an added name occurs once; a kept name occurs once if its value changed, and not at all otherwise |
| CertificateProvider.Decide | src/certificate_provider.py:74-98 | re-request exactly when DomainName is listed; update options exactly for `["Options"]`; nothing to change exactly for the empty list; otherwise reject |
| CertificateProvider.DecideIgnoresOrder | src/certificate_provider.py:68-79 | the decision depends only on the changed names with multiplicity, not on set iteration order |
| CertificateProvider.OtherChangeRejected | src/certificate_provider.py:90-96 | changing any value other than DomainName, Options or ServiceToken is refused |
| CertificateProvider.RejectReason | src/certificate_provider.py:91-96 | the fixed "You can only change" text followed by the changed names joined with `, `, in the order of the list |
| CertificateProvider.Recreated | src/certificate_provider.py:74-75 | the effect of re-requesting: one request call; an ARN replaces the physical id; a client error gives FAILED with its text |
| CertificateProvider.OptionsUpdated | src/certificate_provider.py:76-89 | the effect of an options update: one options call for the physical id with the Options property; a client error gives FAILED with its text; success changes nothing |
| CertificateProvider.Rejected | src/certificate_provider.py:90-96 | the effect of a rejection: FAILED with the reject text of the list; no call |
| CertificateProvider.NothingChanged | src/certificate_provider.py:97-98 | the effect when nothing changed: SUCCESS with `nothing to change`; no call |
| CertificateProvider.UpdatedBy | src/certificate_provider.py:73-100 | the effect of the branch `Decide` picks for a changed list |
| CertificateProvider.Updated | src/certificate_provider.py:60-100 | the effect of update: an OldResourceProperties that is not a dict raises and changes nothing; otherwise some `ChangeList` of the properties is decided by `UpdatedBy` |
| CertificateProvider.RequestNewCertificate | src/certificate_provider.py:74-75 | as `Recreated` states: one request call; its ARN replaces the physical id; a client error gives FAILED and keeps the old id |
| CertificateProvider.UpdateCertificateOptions | src/certificate_provider.py:76-89 | as `OptionsUpdated` states: one options call for the current physical id with the Options property; only a client error changes the response, to FAILED |
| CertificateProvider.RejectChange | src/certificate_provider.py:90-96 | as `Rejected` states: FAILED with `RejectReason` of the list; no call, and only Status and Reason change |
| CertificateProvider.ReportNothingToChange | src/certificate_provider.py:97-98 | as `NothingChanged` states: SUCCESS with `nothing to change`; no call |
| CertificateProvider.ApplyDecision | src/certificate_provider.py:73-100 | the branch `Decide` picks for the list has exactly the effect of that branch, as `UpdatedBy` states |
| CertificateProvider.Update | src/certificate_provider.py:60-100 | as `Updated` states: OldResourceProperties that is not a dict raises on `.keys()` and changes nothing; otherwise the outcome is that of `UpdatedBy` for a list that is a `ChangeList` of the new and old properties |
| CertificateProvider.IsAcmArn | src/certificate_provider.py:103-105 | the id is a string that starts with `arn:aws:acm:` |
| CertificateProvider.Deleted | src/certificate_provider.py:102-113 | the effect of delete: no call unless the id is truthy and starts with `arn:aws:acm:`; a truthy id that is not a string raises; otherwise one delete call with the Region, and its failure gives SUCCESS with the ignore text |
| CertificateProvider.Delete | src/certificate_provider.py:102-113 | as `Deleted` states: no call unless the id is truthy and starts with `arn:aws:acm:`; a non-string truthy id raises; a failing delete becomes SUCCESS with `Ignore failure to delete certificate …`; a SUCCESS status is never turned into FAILED |
| CertificateDnsRecordProvider.NewProvider | src/certificate_dns_record_provider.py:14-29 | a fresh DNS-record provider with its class name and property schema, which has made no call and sent nothing |
| CertificateDnsRecordProvider.AcmRegion | src/certificate_dns_record_provider.py:34 | `arn.split(":")[3]`, or nothing when the ARN has fewer than four fields; AcmRegionOfArn gives the region, and AcmRegionMissing says exactly when there is none |
| CertificateDnsRecordProvider.AcmRegionOfArn | src/certificate_dns_record_provider.py:34 | the region is the fourth colon-separated field |
| CertificateDnsRecordProvider.AcmRegionMissing | src/certificate_dns_record_provider.py:34 | there is no region field, so the index raises, exactly when the ARN has fewer than three colons |
| CertificateDnsRecordProvider.CertificateOf | src/certificate_dns_record_provider.py:31-47 | an ARN that is not a string escapes with the AttributeError of `split`, one without a region field with the IndexError; a client error of the describe call is exactly a precondition failure with its text; a described certificate is found exactly when it is PENDING_VALIDATION or ISSUED, and is then the described one; any other status escapes with the format IndexError |
| CertificateDnsRecordProvider.FirstMatch | src/certificate_dns_record_provider.py:131-138 | the index of the first option that passes the filter, or none when no option does |
| CertificateDnsRecordProvider.GetValidationOption | src/certificate_dns_record_provider.py:127-138 | none exactly when no option matches; otherwise the first matching option |
| CertificateDnsRecordProvider.NoDomainMeansCertificateDomain | src/certificate_dns_record_provider.py:133-134 | with no DomainName, the option of the certificate's own domain is chosen |
| CertificateDnsRecordProvider.RequestedDomainChosen | src/certificate_dns_record_provider.py:133 | the first option for the requested domain is chosen, wherever it sits |
| CertificateDnsRecordProvider.LookStep | src/certificate_dns_record_provider.py:31-81 | one lookup: the certificate, the option for the domain, its method, and its record; LookStepMeaning states the cases |
| CertificateDnsRecordProvider.LookStepMeaning | src/certificate_dns_record_provider.py:57-75 | a record, or waiting for one, needs a found certificate whose chosen option uses DNS; no option fails with `No validation option found for domain`; another method fails with `domain is using validation method X, not DNS` |
| CertificateDnsRecordProvider.Lookups | src/certificate_dns_record_provider.py:80-84 | one lookup per round that fits in the invocation |
| CertificateDnsRecordProvider.PollSteps | src/certificate_dns_record_provider.py:80-84 | the lookups in order until one of them has a record or fails; PollFindsFirstRecord and PollTimesOut state what it finds |
| CertificateDnsRecordProvider.Poll | src/certificate_dns_record_provider.py:78-91 | the poll over the lookups that fit in the invocation |
| CertificateDnsRecordProvider.PollFindsFirstRecord | src/certificate_dns_record_provider.py:80-84 | a found record comes from the first lookup that had one, and every lookup before it had none |
| CertificateDnsRecordProvider.PollTimesOut | src/certificate_dns_record_provider.py:80-84 | the poll runs out of time exactly when every lookup found the option without a record |
| CertificateDnsRecordProvider.PollStopsAtFailure | src/certificate_dns_record_provider.py:78-91 | a failed first lookup ends the poll with its message |
| CertificateDnsRecordProvider.LookForRecord | src/certificate_dns_record_provider.py:79-85 | the loop of lookups ends with the result `Poll` defines |
| CertificateDnsRecordProvider.PolledResponse | src/certificate_dns_record_provider.py:86-91 | a record becomes Data and its name the physical id; a failure gives FAILED with its message, and `could-not-create` as the id only on Create; otherwise the response is unchanged |
| CertificateDnsRecordProvider.Polled | src/certificate_dns_record_provider.py:77-91 | the effect of the poll: the response becomes `PolledResponse` of the poll, or the invocation raises or runs out of time; no call, and the request is untouched |
| CertificateDnsRecordProvider.PollForResourceRecord | src/certificate_dns_record_provider.py:77-91 | as `Polled` states: only the response changes, to `PolledResponse` of the poll; an escaping error raises; running out of time ends the invocation |
| CertificateDnsRecordProvider.Create | src/certificate_dns_record_provider.py:93-94 | the poll, as `Polled` states |
| CertificateDnsRecordProvider.Update | src/certificate_dns_record_provider.py:96-97 | the same poll as create |
| CertificateDnsRecordProvider.Delete | src/certificate_dns_record_provider.py:99-100 | nothing happens |
| IssuedCertificateProvider.NewProvider | src/issued_certificate_provider.py:16-27 | a fresh issued-certificate provider with its class name and property schema, which has made no call and sent nothing |
| IssuedCertificateProvider.IntOf | src/issued_certificate_provider.py:79 | `int()` of an integer is itself; of a string it succeeds exactly when `is_int` holds |
| IssuedCertificateProvider.Attempt | src/issued_certificate_provider.py:76-79 | `int()` of the Attempt property, 1 when absent; FirstAttempt, AttemptFromText and AttemptIncrements state its values |
| IssuedCertificateProvider.AttemptIncrements | src/issued_certificate_provider.py:76-83 | the written counter reads back one higher |
| IssuedCertificateProvider.AttemptFromText | src/issued_certificate_provider.py:76-79 | a counter that arrives as text reads as its number |
| IssuedCertificateProvider.FirstAttempt | src/issued_certificate_provider.py:79 | without an Attempt property the attempt is 1 |
| IssuedCertificateProvider.Reinvoked | src/issued_certificate_provider.py:69-83 | the effect of re-invocation: asynchronous is set; a bad counter raises; otherwise the counter is one higher in the request, and the whole request goes to the ServiceToken function in one invoke call |
| IssuedCertificateProvider.AsyncReinvoke | src/issued_certificate_provider.py:69-83 | as `Reinvoked` states: the flag is set first and the response is untouched; the counter is written into the request in place; the whole updated request is sent to the ServiceToken function in one call; a bad counter raises before any call |
| IssuedCertificateProvider.Checked | src/issued_certificate_provider.py:29-51 | the effect of the status check: the id becomes the CertificateArn; ISSUED gives SUCCESS; PENDING_VALIDATION re-invokes as `Reinvoked` states; a precondition failure gives FAILED with its message; any other status raises the IndexError of `CertificateOf` |
| IssuedCertificateProvider.Check | src/issued_certificate_provider.py:29-51 | as `Checked` states: the id becomes the CertificateArn first; ISSUED gives SUCCESS and no call; PENDING_VALIDATION re-invokes once; a precondition failure gives FAILED with its message; any other status, and any other escaping error, raises |
| IssuedCertificateProvider.Create | src/issued_certificate_provider.py:53-54 | the status check, as `Checked` states |
| IssuedCertificateProvider.Update | src/issued_certificate_provider.py:56-57 | the same status check as create |
| IssuedCertificateProvider.Delete | src/issued_certificate_provider.py:59-60 | nothing happens |
| Lifecycle.ValidationFailure | function/cfn_resource_provider/resource_provider.py:184-259 | the reason of the first failing check of `execute`: the request schema, then the property schema after default injection, then the resource type; none when all pass |
| Lifecycle.Validated | function/cfn_resource_provider/resource_provider.py:236-248 | the request as the checks leave it: defaults injected into the properties once the request schema holds |
| Lifecycle.ValidatedKeepsRequestType | function/cfn_resource_provider/resource_provider.py:236-248 | validation changes no request field other than ResourceProperties |
| Lifecycle.KeepsRequestTypeTransitive | function/cfn_resource_provider/resource_provider.py:310-317 | keeping the request fields other than the properties composes |
| Lifecycle.Refused | function/cfn_resource_provider/resource_provider.py:310-322 | the response of a refused request: FAILED with the reason, then SUCCESS again for a Delete |
| Lifecycle.RefusedFields | function/cfn_resource_provider/resource_provider.py:320-322 | a refused Delete ends SUCCESS and keeps the refusal's Reason; any other refusal ends FAILED |
| Lifecycle.HookOf | function/cfn_resource_provider/resource_provider.py:311-317 | the hook of the RequestType; the request schema makes the `assert` before delete always hold |
| Lifecycle.HookEffect | function/cfn_resource_provider/resource_provider.py:311-317 | the effect of one hook, by the provider's kind: one of the certificate, DNS-record or issued-certificate hook effects |
| Lifecycle.CertificateHookEffect | src/certificate_provider.py:41-113 | create, update and delete of the certificate provider have the effects `Created`, `Updated` and `Deleted` |
| Lifecycle.DnsRecordHookEffect | src/certificate_dns_record_provider.py:93-100 | create and update poll as `Polled` states; delete changes nothing |
| Lifecycle.IssuedHookEffect | src/issued_certificate_provider.py:53-60 | create and update check the status as `Checked` states; delete changes nothing |
| Lifecycle.RunCertificateHook | src/certificate_provider.py:41-113 | the chosen hook of the certificate provider has the effect `Created`, `Updated` or `Deleted` states |
| Lifecycle.RunDnsRecordHook | src/certificate_dns_record_provider.py:93-100 | create and update poll as `Polled` states; delete changes nothing |
| Lifecycle.RunIssuedHook | src/issued_certificate_provider.py:53-60 | create and update check the status as `Checked` states; delete changes nothing; no request field other than the properties changes |
| Lifecycle.IssuedHookKeepsRequestType | src/issued_certificate_provider.py:81-83 | the status check rewrites only the properties |
| Lifecycle.RunHook | function/cfn_resource_provider/resource_provider.py:311-317 | exactly the chosen hook of the provider's kind runs once, with the effect its provider defines (`HookEffect`); no hook touches a request field other than ResourceProperties |
| Lifecycle.RunChecks | function/cfn_resource_provider/resource_provider.py:310 | the three checks run in order and stop at the first failure; the response is failed with that check's reason |
| Lifecycle.Executed | function/cfn_resource_provider/resource_provider.py:306-322 | what `execute` promises: a refusal runs no hook and leaves the refused response; an accepted request runs exactly the hook of its type on the validated request, with that hook's effect |
| Lifecycle.AcceptedExecution | function/cfn_resource_provider/resource_provider.py:310-319 | an accepted request whose hook ran on the validated request has executed as `Executed` states |
| Lifecycle.RefusedExecution | function/cfn_resource_provider/resource_provider.py:320-322 | a refused request that returned with the refusal has executed as `Executed` states |
| Lifecycle.Execute | function/cfn_resource_provider/resource_provider.py:306-322 | as `Executed` states: a refusal runs no hook and fails the response, except that a Delete is forced back to SUCCESS; when all checks pass, exactly the hook of the RequestType runs, with its effect |
| Lifecycle.ValidatedShape | function/cfn_resource_provider/resource_provider.py:310-317 | once the request passes the request schema, it still has a RequestType of Create, Update or Delete and object ResourceProperties after property validation |
| Lifecycle.Dispatch | function/cfn_resource_provider/resource_provider.py:311-319 | exactly the hook of the RequestType runs, with its effect; no request field other than ResourceProperties changes, and the response check after it changes nothing |
| Lifecycle.Refuse | function/cfn_resource_provider/resource_provider.py:320-322 | a refused Delete has its status forced to SUCCESS and keeps its Reason; any other refused request keeps the failed response |
| Lifecycle.Started | function/cfn_resource_provider/resource_provider.py:48-64 | the state `set_request` leaves: the request, the starting response, the calls so far, not asynchronous |
| Lifecycle.Start | function/cfn_resource_provider/resource_provider.py:328-331 | the request is installed with a fresh response, then executed from that state as `Executed` states |
| Lifecycle.Recovered | function/cfn_resource_provider/resource_provider.py:332-336 | after an exception: a Create without an id gets `could-not-create`, and any other id is kept; a SUCCESS status becomes FAILED with the exception text; a FAILED status stays FAILED with its Reason; Data is kept; without an exception nothing changes |
| Lifecycle.Recover | function/cfn_resource_provider/resource_provider.py:332-336 | the except clause applied to the provider's response |
| Lifecycle.Sends | function/cfn_resource_provider/resource_provider.py:338-351 | the finally clause puts the response: not asynchronous, not cut off, and the request has a ResponseURL |
| Lifecycle.Unanswered | function/cfn_resource_provider/resource_provider.py:338-348 | `handle` returns nothing: cut off, or not asynchronous with no ResponseURL, so that the KeyError of `send_response` escapes |
| Lifecycle.Deliver | function/cfn_resource_provider/resource_provider.py:332-351 | the except clause is applied; the response is sent exactly as `Sends` says (not asynchronous, not cut off, and a ResponseURL present); nothing is returned exactly as `Unanswered` says (cut off, or the KeyError of a missing ResponseURL escaped); otherwise the response is returned |
| Lifecycle.Handled | function/cfn_resource_provider/resource_provider.py:324-351 | what `handle` promises: execution from the fresh state as `Executed` states; then the except clause; the response is sent exactly when `Sends` holds; nothing is returned exactly when `Unanswered` holds (cut off, or the KeyError of a missing ResponseURL), and otherwise the response |
| Lifecycle.HandledByParts | function/cfn_resource_provider/resource_provider.py:324-342 | execution as `Executed` states followed by delivery is what `Handled` states |
| Lifecycle.Handle | function/cfn_resource_provider/resource_provider.py:324-351 | as `Handled` states: execution from the fresh state as `Executed` states, so a refusal runs no hook and an accepted request runs exactly its hook with its effect; then only the except clause changes the state; the response is sent exactly when the provider is not asynchronous, the invocation was not cut off and the request has a ResponseURL; the result is nothing exactly when it was cut off or the missing ResponseURL raised, and otherwise the response |
| Lifecycle.RefusedIsAnswered | function/cfn_resource_provider/resource_provider.py:320-351 | a refused request makes no call and ends with the refusal of the fresh response; it is answered with it exactly when it has a ResponseURL, and otherwise the KeyError leaves it unanswered and nothing is sent |
| Lifecycle.PendingCertificateIsNotAnswered | src/issued_certificate_provider.py:36-38 | an issued-certificate Create whose certificate is still pending leaves the provider asynchronous: nothing is sent, and a result is still returned |
| Lifecycle.PollTimeoutIsNotAnswered | src/certificate_dns_record_provider.py:80-84 | a DNS-record Create or Update whose poll runs out of rounds is cut off: nothing is sent and nothing is returned |
| Dispatcher.RouteOf | src/provider.py:6-12 | `Custom::Certificate` goes to the certificate provider, `Custom::IssuedCertificate` goes to the issued-certificate provider, and anything else goes to the DNS-record provider |
| Dispatcher.RoutesMatchProviders | src/provider.py:6-12 | each provider is reached by the type its own check accepts |
| Dispatcher.UnknownTypeRefused | src/provider.py:11-12 | a well-formed request of an unknown type is refused by the DNS-record provider's type check, with that provider's name in the reason |
| Dispatcher.UnknownTypeAnswered | src/provider.py:11-12 | the DNS-record provider answers such a request at once, FAILED (a Delete SUCCESS) with `ResourceType X not supported by provider Custom::CertificateDNSRecord`, and runs no hook |
| Dispatcher.Handler | src/provider.py:6-12 | no ResourceType raises the KeyError `'ResourceType'`, returns nothing and changes no provider; otherwise only the routed provider changes, exactly as `Handled` states for it (its hooks run, calls, state and sent responses), and its result is returned; an unknown type is answered as UnknownTypeAnswered states |

## Left out

- HTTP delivery of the response is modelled as an append to `sent`, after the KeyError of a request without ResponseURL. The PUT itself is left out: its status-code check, and the errors `requests` raises for a ResponseURL that is not an http(s) URL.
- A described certificate always has its ARN, status, domain and validation options, and every option has a domain. The code raises a KeyError on a describe answer without `Status` or `DomainValidationOptions`, or on an option without `DomainName`. Such answers are not modelled.
- JSON values have no floating-point case. `int()` of a float Attempt, and a float property reaching a `type` check, cannot be expressed. CloudFormation passes property values as strings, and the Attempt counter is written as an integer.
- Remote calls answer `Ok` or `ClientError` only. Other exceptions a client can raise, such as botocore's `ParamValidationError` for an extra property passed on by `request_certificate(**arguments)`, are not modelled. They would escape the hook like any error and end in `handle`'s except clause (with `could-not-create` on a Create).
- The jsonschema library itself is left out. The model encodes only the keywords the repository's schemas use (including `additionalProperties: true`, which constrains nothing). `DefaultInjectingValidator.Message` follows jsonschema's wording for the four errors these schemas can produce: a missing required property, a wrong type, a value outside an `enum`, and a pattern that does not match. The values in a message are printed by `Json.Repr`, whose own gaps are listed below. `best_match`, nested schemas and format checking are left out.
- Python's `True == 1` equality is left out: `JBool` and `JInt` values are always distinct, including in `enum` checks and in the change detection of `update`.
- `int()` accepts surrounding whitespace and underscores, and `isdigit` accepts non-ASCII digits. The model accepts only ASCII digits.
- Sleeping, logging and `print` are left out. The re-invoke payload is the request value itself, not its `json.dumps` text.
- The base-class default hooks (`create`/`update` "not implemented") are left out, since every provider here overrides all three. `no_echo`, `convert_property_types` (a no-op) and the other passive request getters are left out too.
- The module-level singletons and per-module `handler` wrappers are modelled only through `Dispatcher.Handler` taking the three providers.
- The `reason` setter, which is bound to the wrong name and so is never used, is left out.
- A request lacking StackId, RequestId or LogicalResourceId is excluded by the precondition of `Lifecycle.Handle`. In the code, `set_request` crashes on it.
- HeuristicConvertPropertyTypes: rewrites a map value and returns the result. The in-place update of nested dicts, and any aliasing between them, is not modelled.
- The describe call of the certificate manager changes nothing, so it is not logged in `calls`.
- A resource record is modelled as a record of name, type and value. An empty or partial record dict from the service is not modelled.
- The `while not dns_record` poll is unbounded in the code. The model allows `Env.pollRounds` lookups and then ends the invocation as `TimedOut` (no response is sent). Past that bound, the model does not describe what the Lambda time limit does.
- The issued-certificate provider's branch for an incorrect status is not reachable, because the certificate lookup raises first. It is left out of the model.
- CertificateProvider.Update: the changed list is stated up to its order within each of its two parts. The added and removed names come first and the value changes after them, as `ChangeList` states. The order inside each part is Python's set iteration order, which the model does not fix. Only the reject reason depends on it, since the decision does not (`DecideIgnoresOrder`).
- Json.Repr: a dict prints as `{...}`, not as its entries. A map keeps no insertion order, and Python would print the entries in that order. Only the wording of messages about dict-valued properties depends on this.
- Json.Repr: escapes only the backslash, the chosen quote, newline, return and tab. Python also writes other unprintable characters as `\x..`, `\u....` or `\U........` escapes, and the model leaves those out.
- Exception texts follow Python 3.10 and later. The format `IndexError` (`CertificateDnsRecordProvider.FormatIndexError`) is worded "tuple index out of range" before 3.8. `int()`'s TypeError (`IssuedCertificateProvider.NotANumber`) says "or a number" instead of "or a real number" before 3.10.
