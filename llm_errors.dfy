/** The error raised when every model of a fallback chain has failed. */
module LlmErrors {
  import opened Wrappers

  /** The failure of the last attempt is kept as its text. */
  datatype AllProvidersFailed = AllProvidersFailed(message: string, lastError: Option<string>, providerChain: seq<string>)

  /** The constructor: a missing or empty chain is stored as []. */
  function NewAllProvidersFailed(message: string, lastError: Option<string>, chain: Option<seq<string>>): (e: AllProvidersFailed)
    ensures e.message == message && e.lastError == lastError
    ensures chain.None? ==> e.providerChain == []
    ensures chain.Some? ==> e.providerChain == chain.value
  {
    AllProvidersFailed(message, lastError, if chain.Some? && chain.value != [] then chain.value else [])
  }

  /** `__str__`: the message, followed by the last error when there is one. */
  function Text(e: AllProvidersFailed): (s: string)
    ensures e.message <= s
    ensures e.lastError.None? <==> s == e.message
    ensures e.lastError.Some? ==> s == e.message + " Last error: " + e.lastError.value
  {
    if e.lastError.None? then e.message else e.message + " Last error: " + e.lastError.value
  }
}
