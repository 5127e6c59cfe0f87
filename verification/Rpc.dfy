/** JSON-RPC request ids, as both the app-server client and the analytics reducer use them. */
module Rpc {
  datatype RequestId = StringId(text: string) | IntegerId(number: int)
}
