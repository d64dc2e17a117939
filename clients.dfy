/**
 * The two transcriber factories: which client a mode and its credentials select, and the
 * errors for a wrong number of credentials or an unknown mode. Building the selected client
 * (loading the whisper model, opening a genai or HTTP client) is not part of this model.
 */
module TranscriberClient {
  import opened Wrappers
  import opened Errors

  /** The client internal/transcriber's NewClient goes on to build. */
  datatype Selected = LocalWhisper | GeminiApi(apiKey: string)

  const InvalidCredentials: Error := Failure("invalid credentials")
  const InvalidMode: Error := Failure("invalid client mode, must be one of: local, google")

  /** NewClient(ctx, mode, apiKey...): "whisper" needs no key, "gemini" exactly one. */
  function NewClient(mode: string, apiKeys: seq<string>): (r: Result<Selected, Error>)
    ensures r.Ok? <==> mode == "whisper" || (mode == "gemini" && |apiKeys| == 1)
    ensures mode == "whisper" ==> r == Ok(LocalWhisper)
    ensures mode == "gemini" && |apiKeys| == 1 ==> r == Ok(GeminiApi(apiKeys[0]))
    ensures mode == "gemini" && |apiKeys| != 1 ==> r == Err(InvalidCredentials)
    ensures mode != "whisper" && mode != "gemini" ==> r == Err(InvalidMode)
  {
    if mode == "whisper" then Ok(LocalWhisper)
    else if mode == "gemini" then
      if |apiKeys| != 1 then Err(InvalidCredentials) else Ok(GeminiApi(apiKeys[0]))
    else Err(InvalidMode)
  }

  /** The keys passed with "whisper" are ignored, whatever they are. */
  lemma WhisperIgnoresKeys(a: seq<string>, b: seq<string>)
    ensures NewClient("whisper", a) == NewClient("whisper", b) == Ok(LocalWhisper)
  {
  }
}

module TranscriptorClient {
  import opened Wrappers
  import opened Errors

  /** The client pkg/transcriptor's NewClient goes on to build. */
  datatype Selected = LocalHttp(clientId: string, clientSecret: string) | GoogleApi(apiKey: string)

  const InvalidCredentials: Error := Failure("invalid credentials")
  const InvalidMode: Error := Failure("invalid client mode, must be one of: local, google")

  /** NewClient(ctx, mode, credentials...): "local" needs an id and a secret, "google" one key. */
  function NewClient(mode: string, credentials: seq<string>): (r: Result<Selected, Error>)
    ensures r.Ok? <==> (mode == "local" && |credentials| == 2) || (mode == "google" && |credentials| == 1)
    ensures mode == "local" && |credentials| == 2 ==> r == Ok(LocalHttp(credentials[0], credentials[1]))
    ensures mode == "google" && |credentials| == 1 ==> r == Ok(GoogleApi(credentials[0]))
    ensures (mode == "local" || mode == "google") && r.Err? ==> r == Err(InvalidCredentials)
    ensures mode != "local" && mode != "google" ==> r == Err(InvalidMode)
  {
    if mode == "local" then
      if |credentials| != 2 then Err(InvalidCredentials) else Ok(LocalHttp(credentials[0], credentials[1]))
    else if mode == "google" then
      if |credentials| != 1 then Err(InvalidCredentials) else Ok(GoogleApi(credentials[0]))
    else Err(InvalidMode)
  }
}
