/**
 * The external services as the providers see them: the certificate
 * manager (describe, request, update options, delete) and the function
 * service's asynchronous invoke. Each call's answer comes from an `Env`
 * supplied by the caller; a failing call answers with the text of the
 * client error it raised.
 */
module Remote {
  import opened Wrappers
  import opened Json

  /** A remote call either returns a value or raises a client error with this text. */
  datatype CallResult<T> = Ok(value: T) | ClientError(message: string)

  /** The DNS record a validation option asks to be published. */
  datatype ResourceRecord = ResourceRecord(name: string, recordType: string, value: string)

  /** One entry of a certificate's "DomainValidationOptions". */
  datatype ValidationOption = ValidationOption(
    domainName: string,
    validationStatus: Option<string>,
    resourceRecord: Option<ResourceRecord>,
    validationMethod: Option<string>)

  /** The fields of a described certificate that the providers read. */
  datatype Certificate = Certificate(
    arn: string,
    status: string,
    domainName: string,
    options: seq<ValidationOption>)

  /** A state-changing call issued to a remote service, with its arguments. */
  datatype Call =
    | RequestCertificateCall(region: Json, arguments: Object)
    | UpdateOptionsCall(region: Json, certificateArn: Json, options: Json)
    | DeleteCertificateCall(region: Json, arn: string)
    | InvokeCall(functionName: Json, payload: Object)

  /**
   * The answers of the remote services. `describeCertificate` is asked with
   * the region, the ARN and the number of earlier lookups in this
   * invocation, so that a certificate's state may change while it is being
   * polled; `pollRounds` is how many lookups fit in the invocation's time.
   */
  datatype Env = Env(
    describeCertificate: (string, string, nat) -> CallResult<Certificate>,
    requestCertificate: (Json, Object) -> CallResult<string>,
    updateCertificateOptions: (Json, Json, Json) -> CallResult<()>,
    deleteCertificate: (Json, string) -> CallResult<()>,
    invoke: (Json, Object) -> CallResult<()>,
    pollRounds: nat)
}
