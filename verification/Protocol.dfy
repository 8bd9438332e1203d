/** Names shared across the program's crates (arena-protocol). */
module Protocol {
  type Tick = nat

  const TICK_MAX: Tick := 0xFFFF_FFFF

  type U32 = n: nat | n < 0x1_0000_0000

  type EntityId = nat

  /** Ids of content, mobs and actors. */
  type Id = string

  /** A 32-byte hash, as the number its bytes spell, most significant first. */
  type Hash = nat

  datatype Zone = Zone(x: int, z: int)

  datatype Team = NoTeam | Red | Blue
}
