/** Why a connection was disposed: the exception the source passes to
    `WsConnection.Dispose`, or none for a graceful close. */
module Errors {

  datatype Fault =
    | ConnectFailed       // ConnectAsync threw or timed out
    | SendFailed          // a write on the socket threw
    | ReceiveFailed       // ReceiveAsync threw
    | CloseFrameReceived  // the peer sent a Close frame
    | PingTimeout         // the keepalive watchdog timed out
}
