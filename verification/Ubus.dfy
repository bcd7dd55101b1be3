/** Numbers that the daemon and the library share (`ubusmsg.h` and `CMakeLists.txt`). */
module Ubus {

  type ClientId = nat
  type ObjId = nat
  type TypeId = nat

  /** UBUS_MAX_MSGLEN. */
  const MAX_MSGLEN := 1048576

  /** The objects that the daemon itself provides. */
  const EVENT_OBJECT := 1
  const ACL_OBJECT := 2
  const MONITOR_OBJECT := 3

  /** Ids below this one are not handed out at random. */
  const SYSTEM_OBJECT_MAX := 1024

  /** `enum ubus_msg_status`. */
  const OK := 0
  const INVALID_COMMAND := 1
  const INVALID_ARGUMENT := 2
  const METHOD_NOT_FOUND := 3
  const NOT_FOUND := 4
  const PERMISSION_DENIED := 6
  const TIMEOUT := 7
  const UNKNOWN_ERROR := 9
}
