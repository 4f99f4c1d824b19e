/** The request settings and the upload preferences of one destination. */
module UploaderConfigurations {
  import opened Wrappers
  import opened LogUploadErrors

  /** The request handed to the transport: a POST to the configured URL. */
  datatype UrlRequest = UrlRequest(url: string, httpMethod: string, body: map<string, string>, headers: map<string, string>)

  /**
   * LogUploadConfiguration. `parameterEncoding` is the foreign encoder that
   * puts the parameters into a request (and may throw); `headers` is the
   * optional closure that yields headers when the request is built.
   */
  datatype LogUploadConfiguration = LogUploadConfiguration(
    requestURL: string,
    parameters: map<string, string>,
    parameterEncoding: (UrlRequest, map<string, string>) -> Result<UrlRequest, SystemError>,
    headers: Option<() -> map<string, string>>)

  /** LogUploaderConfiguration: the request settings and the archival switches. */
  datatype LogUploaderConfiguration = LogUploaderConfiguration(
    uploadConf: LogUploadConfiguration,
    storeFailedUploads: bool,
    autoRetryFailedUploads: bool,
    storeSuccessfulUploads: bool)
}
