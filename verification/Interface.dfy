/** What src/interface.h, src/tcpconnection.h and src/network.h share: states, reasons, callbacks. */
module Interface {
  datatype Option<+T> = None | Some(value: T)

  /** `CONNSTATE`; live code never assigns `CryptRegIng` or `WaitClose`. */
  datatype ConnState = Closed | Connecting | CryptRegIng | Connected | WaitClose

  const SOCKET_ERROR_CONN_TIMEOUT := 1
  const SOCKET_ERROR_TIMEOUT := 2
  const SOCKET_ERROR_CONN_FAIL := 3
  const SOCKET_ERROR_PARSE_PDU := 4
  const SOCKET_ERROR_REMOTE_CLOSE := 5
  const SOCKET_ERROR_CLOSE := 6

  datatype Callback = OnConnect | OnRead | OnClose
}
