/** The configuration values the transport reads. Immutable once a connection exists. */
module Settings {
  import opened Wrappers

  datatype Config = Config(
    serverUrl: string,
    disableSend: bool,
    httpCompression: bool,
    /** byte threshold that triggers a flush */
    apiRequestSize: int,
    /** delay of the close timer; `None` disables the timer */
    apiRequestTime: Option<int>,
    secretToken: Option<string>,
    proxyAddress: Option<string>,
    proxyPort: Option<int>,
    proxyUsername: Option<string>,
    proxyPassword: Option<string>,
    proxyHeaders: Option<map<string, string>>,
    useSsl: bool,
    serverCaCert: Option<string>)
}
