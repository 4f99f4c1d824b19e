/**
 * The upload error taxonomy and the classification of HTTP responses into
 * network errors. Status classes are those of section 15 of RFC 9110; the
 * classifier uses the half-open ranges of the Swift code, so 499 and 599
 * fall outside it.
 */
module LogUploadErrors {
  import opened Wrappers

  /** An error value thrown by a foreign call (file reading, parameter encoding, the transport). */
  datatype SystemError =
    | FileReadError
    | EncodingError(reason: string)
    | TransportError(reason: string)

  /** The errors of the communication with the backend. */
  datatype NetworkError =
    | Connection(cause: SystemError)
    | Authentication
    | ClientError
    | ServerError
    | MissingValue(description: string)

  /** The errors of one log upload. */
  datatype LogUploadError =
    | MissingDestination
    | MissingConfiguration
    | LogFileError
    | MissingRequest(cause: SystemError)
    | Network(error: NetworkError)

  /** The part of an HTTPURLResponse the classifier looks at. */
  datatype HttpResponse = HttpResponse(statusCode: int)

  /** The status code of an optional response; a missing response counts as code 0. */
  function StatusCode(response: Option<HttpResponse>): int {
    if response.Some? then response.value.statusCode else 0
  }

  /**
   * NetworkError(response:): 401 is an authentication failure, 400..<499 a
   * client error, 500..<599 a server error, anything else no error.
   */
  function FromResponse(response: Option<HttpResponse>): (r: Option<NetworkError>)
    ensures r.Some? ==> r.value.Authentication? || r.value.ClientError? || r.value.ServerError?
    ensures r == Some(Authentication) <==> StatusCode(response) == 401
    ensures r.None? <==> !(400 <= StatusCode(response) < 499) && !(500 <= StatusCode(response) < 599)
  {
    var code := StatusCode(response);
    if code == 401 then Some(Authentication)
    else if 400 <= code < 499 then Some(ClientError)
    else if 500 <= code < 599 then Some(ServerError)
    else None
  }

  /**
   * NetworkError(response:error:): the status-derived error when there is
   * one, otherwise a connection error carrying the transport's error.
   */
  function FromResponseAndError(response: Option<HttpResponse>, error: SystemError): (r: NetworkError)
    ensures !r.MissingValue?
    ensures r.Connection? <==> FromResponse(response).None?
    ensures r.Connection? ==> r.cause == error
    ensures FromResponse(response).Some? ==> r == FromResponse(response).value
  {
    match FromResponse(response)
    case Some(e) => e
    case None => Connection(error)
  }

  /** The class of a status code, its first digit, per section 15 of RFC 9110. */
  function StatusClass(code: int): int
    requires 100 <= code <= 599
  {
    code / 100
  }

  /** Every 4xx status except 499 is classified; 401 takes priority over the client-error range. */
  lemma ClientErrorClass(code: int)
    requires 100 <= code <= 599 && StatusClass(code) == 4
    ensures code == 401 ==> FromResponse(Some(HttpResponse(code))) == Some(Authentication)
    ensures code != 401 && code != 499 ==> FromResponse(Some(HttpResponse(code))) == Some(ClientError)
    ensures code == 499 ==> FromResponse(Some(HttpResponse(code))) == None
  {
  }

  /** Every 5xx status except 599 is a server error. */
  lemma ServerErrorClass(code: int)
    requires 100 <= code <= 599 && StatusClass(code) == 5
    ensures code != 599 ==> FromResponse(Some(HttpResponse(code))) == Some(ServerError)
    ensures code == 599 ==> FromResponse(Some(HttpResponse(code))) == None
  {
  }

  /**
   * The classifier agrees with the RFC 9110 classes on every defined status
   * code except the last code of each error class.
   */
  lemma AgreesWithStatusClasses(code: int)
    requires 100 <= code <= 599 && code != 499 && code != 599
    ensures FromResponse(Some(HttpResponse(code))).Some? <==> StatusClass(code) == 4 || StatusClass(code) == 5
    ensures FromResponse(Some(HttpResponse(code))) == Some(ServerError) <==> StatusClass(code) == 5
  {
  }

  /** A missing response and a success status are never errors by themselves. */
  lemma MissingResponseIsFine(response: Option<HttpResponse>, error: SystemError)
    requires response.None? || 200 <= response.value.statusCode < 300
    ensures FromResponse(response).None?
    ensures FromResponseAndError(response, error) == Connection(error)
  {
  }

  /** The message that NetworkError.displayMessage shows; `describe` is the foreign localizedDescription. */
  function NetworkMessage(e: NetworkError, describe: SystemError -> string): string {
    match e
    case Connection(cause) => "Error while connecting to the backend: " + describe(cause)
    case Authentication => "Unable to authenticate user with the given credentials. Please reenter your credentials."
    case ClientError => "An unknown client error occured."
    case ServerError => "An unknown server error occured."
    case MissingValue(description) => "A value is missing in the response: " + description
  }

  const NetworkPrefix: string := "A network error occured. "

  /** The message that LogUploadError.displayMessage shows. */
  function DisplayMessage(e: LogUploadError, describe: SystemError -> string): string {
    match e
    case MissingDestination => "Could not get any eligible destination with the given identifier."
    case MissingConfiguration => "Could not get the required configuration object for networking."
    case LogFileError => "An error occured during the processing of the log file."
    case MissingRequest(_) => "An error occured when generating the URL request"
    case Network(n) => NetworkPrefix + NetworkMessage(n, describe)
  }

  /**
   * A network error is shown as the fixed network prefix followed by the
   * network error's own message, unchanged.
   */
  lemma NetworkMessageFramed(n: NetworkError, describe: SystemError -> string)
    ensures var m := DisplayMessage(Network(n), describe);
      |m| == |NetworkPrefix| + |NetworkMessage(n, describe)| &&
      m[..|NetworkPrefix|] == NetworkPrefix &&
      m[|NetworkPrefix|..] == NetworkMessage(n, describe)
  {
  }
}
