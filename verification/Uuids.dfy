/** UUID values: 128-bit numbers, compared as PostgreSQL compares the 16 big-endian bytes. */
module Uuids {
  const UUID_LIMIT: nat := 0x1_0000_0000_0000_0000_0000_0000_0000_0000

  type Uuid = n: nat | n < UUID_LIMIT
}
