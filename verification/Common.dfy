/** Datatypes shared by the models of the JavaScript and C layers. */
module Common {
  datatype Option<+T> = None | Some(value: T)

  /** The errno names that the modelled system calls report. */
  datatype Errno =
    | EAGAIN | EBADF | ECONNREFUSED | EFAULT | EINPROGRESS | EINVAL
    | ENOPROTOOPT | ENOTCONN | ENOTSOCK | ETIMEDOUT | EOTHER(code: nat)

  /** `sock.type`. */
  datatype SockType = StreamSock | DatagramSock

  /** `ws.readyState`. */
  datatype Ready = Connecting | Open | Closing | Closed

  predicate Ending(ready: Ready) { ready == Closing || ready == Closed }

  newtype byte = x: int | 0 <= x < 256
  type Bytes = seq<byte>
}
