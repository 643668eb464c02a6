/** The vocabulary of the chat protocol shared by the codec and the server. */
module Protocol {
  import opened Basics
  import opened Strings

  /** rpchat_conn_stat_t */
  datatype Status = PreRegister | Available | SendStat | SendMsg | PendingStatus | Err | Closing

  /** What reading one message from a client's socket yields.  None stands for a field that
      was not read: short, oversized, empty, or not admitted in the connection's state. */
  datatype Incoming =
    | NoData
    | Register(name: Option<Bytes>)
    | Send(body: Option<Bytes>)
    | Reply(code: Option<Byte>)
    | Unknown

  const OP_REGISTER: Byte := 1
  const OP_SEND: Byte := 2
  const OP_DELIVER: Byte := 3
  const OP_STATUS: Byte := 4

  const STATUS_GOOD: Byte := 0
  const STATUS_ERROR: Byte := 1
}
