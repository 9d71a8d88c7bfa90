/**
 * The configuration checks of wk_status.15m.rb: whether the API token is set,
 * and whether a display section is switched on. The environment variables are
 * passed in as optional strings (None for an unset variable).
 */
module Settings {
  import opened Wrappers

  /** The token value the plugin ships with in its xbar.var declaration. */
  const Placeholder: string := "api_token"

  /** The only flag value that shows a section. */
  const Enabled: string := "true"

  /** The guard of WaniKani#fetch: unset, the placeholder, or empty. */
  predicate TokenMissing(token: Option<string>)
  {
    token.None? || token.value == Placeholder || token.value == ""
  }

  /** The two guards of print_stages, print_level and print_user_info: not nil, then equal to "true". */
  predicate SectionShown(flag: Option<string>)
  {
    if flag.None? then false else flag.value == Enabled
  }

  /** A token counts as configured exactly when it is a non-empty string other than the placeholder. */
  lemma TokenConfigured(token: Option<string>)
    ensures !TokenMissing(token) <==> exists t :: token == Some(t) && |t| > 0 && t != Placeholder
  {
  }

  /** A section is shown for the exact string "true" only: "TRUE", "1" or an unset flag hide it. */
  lemma SectionShownExactlyTrue(flag: Option<string>)
    ensures SectionShown(flag) <==> flag == Some("true")
    ensures !SectionShown(Some("TRUE")) && !SectionShown(Some("1")) && !SectionShown(None)
  {
  }
}
