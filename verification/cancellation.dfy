/** System.Threading.CancellationToken, compared the way .NET compares it: by its source. */
module Cancellation {

  datatype CancellationToken =
    | NoneToken              // CancellationToken.None, also `default(CancellationToken)`
    | FromSource(source: nat) // the token of one CancellationTokenSource
}
