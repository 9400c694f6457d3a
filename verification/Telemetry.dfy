/** What a provider reports about a call. */
module Telemetry {
  datatype Usage = Usage(input: int, output: int, total: int)
}
