/**
 * The backend client's configuration (src/lib/supabase.ts): the project URL
 * and the anonymous key come from the environment, and the URL is given an
 * explicit `https://` scheme when it does not already start with `http`.
 * Creating the client itself is a foreign call and is not modelled.
 */
module SupabaseConfig {
  import opened Common

  /**
   * `formattedUrl`. A URL that starts with `http` is kept; any other is
   * prefixed with `https://`, and a missing one becomes the template
   * rendering of `undefined`, `https://undefined`.
   */
  function FormatUrl(url: Option<string>): (r: string)
    ensures "http" <= r
    ensures url.Some? && "http" <= url.value ==> r == url.value
    ensures url.Some? && !("http" <= url.value) ==> r == "https://" + url.value && |r| == |url.value| + 8
    ensures url.None? ==> r == "https://undefined"
  {
    match url
    case Some(u) => if "http" <= u then u else "https://" + u
    case None => "https://" + "undefined"
  }

  /** Normalising an already normalised URL changes nothing. */
  lemma FormatUrlIdempotent(url: Option<string>)
    ensures FormatUrl(Some(FormatUrl(url))) == FormatUrl(url)
  {
  }

  /**
   * The URL handed to `createClient`: `formattedUrl || ''`. The fallback is
   * never taken, since the formatted URL always starts with `http`.
   */
  function ClientUrl(url: Option<string>): (r: string)
    ensures r != "" && r == FormatUrl(url)
  {
    OrDefault(Some(FormatUrl(url)), "")
  }

  /** The key handed to `createClient`: `supabaseAnonKey || ''`. */
  function ClientKey(key: Option<string>): (r: string)
    ensures key.Some? ==> r == key.value
    ensures key.None? ==> r == ""
  {
    OrDefault(key, "")
  }

  /**
   * Whether the configuration error is logged: when the URL or the key is
   * missing or empty. Logging is the only consequence; the client is created
   * either way.
   */
  function ReportsMissingConfig(url: Option<string>, key: Option<string>): (r: bool)
    ensures r <==> url.None? || url == Some("") || key.None? || key == Some("")
  {
    OrDefault(url, "") == "" || OrDefault(key, "") == ""
  }
}
