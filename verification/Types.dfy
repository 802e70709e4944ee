/** Fixed-width integers, byte strings, addresses and the sizes of the netcode.io 1.01 protocol. */
module Types {

  datatype Option<+T> = None | Some(value: T)

  const TWO32: int := 0x1_0000_0000
  const TWO63: int := 0x8000_0000_0000_0000
  const TWO64: int := 0x1_0000_0000_0000_0000

  type byte = x: int | 0 <= x < 0x100
  type uint16 = x: int | 0 <= x < 0x1_0000
  type uint32 = x: int | 0 <= x < 0x1_0000_0000
  type uint64 = x: int | 0 <= x < 0x1_0000_0000_0000_0000
  type int32 = x: int | -0x8000_0000 <= x < 0x8000_0000

  const KEY_BYTES := 32
  const MAC_BYTES := 16
  const VERSION_INFO_BYTES := 13
  const USER_DATA_BYTES := 256
  const CHALLENGE_TOKEN_BYTES := 300
  const CONNECT_TOKEN_PRIVATE_BYTES := 1024
  const CONNECT_TOKEN_BYTES := 2048
  const MAX_SERVERS_PER_CONNECT := 32
  const MAX_PACKET_BYTES := 1220
  const MAX_PAYLOAD_BYTES := 1200
  const PACKET_QUEUE_SIZE := 256
  const REPLAY_PROTECTION_BUFFER_SIZE := 256
  const MAX_CLIENTS := 256
  const MAX_ENCRYPTION_MAPPINGS := 4 * MAX_CLIENTS
  const MAX_CONNECT_TOKEN_ENTRIES := 8 * MAX_CLIENTS
  const NUM_DISCONNECT_PACKETS := 10
  /** 1 / NETCODE_PACKET_SEND_RATE, in seconds. */
  const SEND_INTERVAL: real := 0.1

  type bytes = seq<byte>
  type Key = k: seq<byte> | |k| == 32 witness seq(32, _ => 0)
  type Mac = k: seq<byte> | |k| == 16 witness seq(16, _ => 0)
  type UserData = k: seq<byte> | |k| == 256 witness seq(256, _ => 0)
  type ChallengeData = k: seq<byte> | |k| == 300 witness seq(300, _ => 0)
  type PrivateData = k: seq<byte> | |k| == 1024 witness seq(1024, _ => 0)
  type VersionInfo = k: seq<byte> | |k| == 13 witness seq(13, _ => 0)
  type Words = w: seq<uint16> | |w| == 8 witness seq(8, _ => 0)

  const ZERO_KEY: Key := Zeros(32)
  const ZERO_MAC: Mac := Zeros(16)
  const ZERO_USER_DATA: UserData := Zeros(256)
  const ZERO_CHALLENGE_DATA: ChallengeData := Zeros(300)

  /** "NETCODE 1.01" in ASCII with its null terminator. */
  const VERSION_INFO: VersionInfo := [78, 69, 84, 67, 79, 68, 69, 32, 49, 46, 48, 49, 0]

  function Zeros(n: nat): (z: bytes)
    ensures |z| == n
  {
    seq(n, _ => 0)
  }

  /** A network address. NoAddress stands for every C address whose type is NETCODE_ADDRESS_NONE. */
  datatype Address =
    | NoAddress
    | IPv4(a: byte, b: byte, c: byte, d: byte, port4: uint16)
    | IPv6(words: Words, port6: uint16)

  /** netcode_address_equal: an address of type NONE is equal to nothing, not even to itself. */
  predicate SameAddress(x: Address, y: Address) {
    x != NoAddress && x == y
  }

  /** A uint64 counter increment. */
  function Inc64(x: uint64): uint64 {
    if x + 1 == TWO64 then 0 else x + 1
  }

  /** The cast of an int to uint32, and of a uint32 back to int. */
  function ToUint32(x: int32): uint32 {
    if x < 0 then x + TWO32 else x
  }

  function ToInt32(x: uint32): int32 {
    if x >= 0x8000_0000 then x - TWO32 else x
  }

  lemma MulMonotone(size: nat, x: nat, y: nat)
    requires x <= y
    ensures size * x <= size * y
  {
  }

  lemma Uint32RoundTrip(x: uint32)
    ensures ToUint32(ToInt32(x)) == x
  {
  }
}
