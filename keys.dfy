/** Fixed-width integers and the key types of the entity space. */
module Keys {

  type U8 = x: int | 0 <= x < 0x100
  type U16 = x: int | 0 <= x < 0x1_0000
  type U32 = x: int | 0 <= x < 0x1_0000_0000

  /** Every entity kind is keyed by an unsigned 32-bit identifier. */
  type Key = U32

  /** A page of a paginated feed is keyed by (limit, offset). */
  type PageKey = (U16, U32)

  /** True when `offset + limit` still fits in 32 bits, so the key of the
      following page can be formed without overflow. */
  predicate HasNextKey(key: PageKey) {
    key.1 + key.0 < 0x1_0000_0000
  }
}
