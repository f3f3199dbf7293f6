/** Process configuration: the credential set and the selected API host. */
module Config {
  import opened Wrappers

  const SandboxUrl: string := "https://openapisandbox.investec.com"
  const ProductionUrl: string := "https://openapi.investec.com"

  /**
   * `BASE_URL`, chosen from the `USE_SANDBOX` environment variable
   * (`None` when the variable is unset): only the exact text "true"
   * selects the sandbox host; every other value, and no value, selects
   * production.
   */
  function BaseUrl(useSandbox: Option<string>): (url: string)
    ensures url == SandboxUrl <==> useSandbox == Some("true")
    ensures url == ProductionUrl <==> useSandbox != Some("true")
  {
    if useSandbox == Some("true") then SandboxUrl else ProductionUrl
  }

  /**
   * The values read once at start-up: `CLIENT_ID`, `CLIENT_SECRET`,
   * `API_KEY` and `USE_SANDBOX`; the host every request goes to is the
   * `BASE_URL` that `USE_SANDBOX` selects.
   */
  datatype Settings = Settings(clientId: string, clientSecret: string, apiKey: string, useSandbox: Option<string>)
  {
    function Url(): string {
      BaseUrl(useSandbox)
    }
  }
}
