/** The connection record kept in every heap slot, and the constants of the server. */
module Connections {

  const KEEP_ALIVE_TIMEOUT := 60
  const BUFFER_REQUEST_SIZE := 1024
  const MAX_EPOLL_EVENTS := 1024

  datatype Option<+T> = None | Some(value: T)

  datatype ConnectionState = Recv | SendHeaders | SendBody | Done | DoneForClose

  datatype Header = Header(name: string, value: string)

  /** A NULL pointer of the C record is the empty string or the empty sequence here.
      A body descriptor of -1 means that no file is open. Paths of files are those below the directory
      that the server publishes. */
  datatype Connection = Connection(
    priorityTime: int,
    clientFd: nat,
    state: ConnectionState,
    requestBuffer: string,
    requestBufferOffset: nat,
    keepAlive: bool,
    responseHeaders: string,
    responseHeadersOffset: nat,
    bodyFd: int,
    bodyLength: nat,
    bodyOffset: nat,
    protocolVersion: string,
    path: string,
    absolutePath: string,
    requestHeaders: seq<Header>,
    requestBody: string
  )

  function EmptyConnection(): Connection {
    Connection(0, 0, Recv, "", 0, false, "", 0, -1, 0, 0, "", "", "", [], "")
  }

  /** The record of a client that has just arrived or has just been served. */
  function FreshConnection(fd: nat, now: int): Connection {
    EmptyConnection().(clientFd := fd, priorityTime := now)
  }
}
