/** The process-wide base address of the backend. */
module Config {
  import opened JsValues

  /** The fallback used when the deployment sets no address. */
  const LocalDefault := "http://localhost:5000"

  /** `process.env.NEXT_PUBLIC_API_URL || 'http://localhost:5000'`: an unset or empty
      variable selects the local default. The default carries no `/api` suffix; a configured
      address is used exactly as given. */
  function BaseUrl(env: Option<string>): (r: string)
    ensures r != ""
    ensures env.Some? && env.value != "" ==> r == env.value
    ensures env.None? || env.value == "" ==> r == LocalDefault
  {
    match env
    case Some(url) => if url != "" then url else LocalDefault
    case None => LocalDefault
  }
}
