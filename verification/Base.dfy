/** Types shared by every component of the model. */
module Base {
  datatype Option<+T> = None | Some(value: T)

  type uint16 = n: int | 0 <= n < 0x1_0000

  type ClientId = nat
  type UserId = string
  type RoomId = string
  type RoomType = string

  /** Go's uint16(n): keeps the low sixteen bits. */
  function Narrow(n: nat): (r: uint16) {
    n % 0x1_0000
  }
}
