/** The configuration the client reads once at start-up and never changes. */
module Settings {

  /**
   * The OAuth client credentials, the organization whose books are read,
   * and the two base URLs. Secret values are plain strings here.
   */
  datatype ZohoConfig = ZohoConfig(
    clientId: string,
    clientSecret: string,
    refreshToken: string,
    organizationId: string,
    apiBaseUrl: string,
    authBaseUrl: string)
}
