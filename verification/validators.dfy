/** `apiCredsExist` of src/validators.ts. */
module Validators {
  import opened Wrappers

  const CREDENTIALS_MESSAGE := "API key and secret must be set prior to using the Binance API!"

  /** JavaScript truthiness of an optional string: present and not empty. */
  predicate IsSet(s: Option<string>)
  {
    s.Some? && s.value != ""
  }

  /**
   * Fails, with the fixed message, when the API key or the API secret is missing or empty.
   * It only reads the two settings, so the configuration is left as it was.
   */
  function ApiCredsExist(key: Option<string>, secret: Option<string>): (r: Outcome<string>)
    ensures r.Pass? <==> key.Some? && key.value != "" && secret.Some? && secret.value != ""
    ensures r.Fail? ==> r.error == "API key and secret must be set prior to using the Binance API!"
  {
    if !IsSet(key) || !IsSet(secret) then Fail(CREDENTIALS_MESSAGE) else Pass
  }
}
