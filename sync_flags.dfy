/** The dirty mask of the map item: one bit per group of view state that a later
    render pass still has to push into the map engine (QQuickMapboxGL::SyncState). */
module SyncFlags {

  /** m_syncState is a plain C++ int; every flag fits in its low six bits. */
  type SyncMask = bv32

  const NothingNeedsSync: SyncMask := 0
  const ZoomNeedsSync: SyncMask    := 0x01
  const CenterNeedsSync: SyncMask  := 0x02
  const StyleNeedsSync: SyncMask   := 0x04
  const PanNeedsSync: SyncMask     := 0x08
  const BearingNeedsSync: SyncMask := 0x10
  const PitchNeedsSync: SyncMask   := 0x20

  /** Every bit that some SyncState flag names (their union). */
  const AllFlags: SyncMask := 0x3f

  /** `f` has exactly one bit set. */
  predicate IsSingleBit(f: SyncMask) {
    f != 0 && f & (f - 1) == 0
  }

  /** Every bit of `flags` is set in `mask`. */
  predicate Includes(mask: SyncMask, flags: SyncMask) {
    mask & flags == flags
  }

  /** Going from `before` to `after` at most ORs in `flag`. */
  predicate RaisesAtMost(before: SyncMask, after: SyncMask, flag: SyncMask) {
    after == before || after == before | flag
  }

  /** `mask` holds no bit outside the six SyncState flags. */
  predicate OnlyKnownFlags(mask: SyncMask) {
    mask & !AllFlags == 0
  }

  /** The six flags are single bits, pairwise disjoint, and NothingNeedsSync is the empty mask. */
  lemma FlagsAreDistinctSingleBits()
    ensures NothingNeedsSync == 0
    ensures AllFlags == ZoomNeedsSync | CenterNeedsSync | StyleNeedsSync | PanNeedsSync | BearingNeedsSync | PitchNeedsSync
    ensures IsSingleBit(ZoomNeedsSync) && IsSingleBit(CenterNeedsSync) && IsSingleBit(StyleNeedsSync)
    ensures IsSingleBit(PanNeedsSync) && IsSingleBit(BearingNeedsSync) && IsSingleBit(PitchNeedsSync)
    ensures ZoomNeedsSync & (CenterNeedsSync | StyleNeedsSync | PanNeedsSync | BearingNeedsSync | PitchNeedsSync) == 0
    ensures CenterNeedsSync & (StyleNeedsSync | PanNeedsSync | BearingNeedsSync | PitchNeedsSync) == 0
    ensures StyleNeedsSync & (PanNeedsSync | BearingNeedsSync | PitchNeedsSync) == 0
    ensures PanNeedsSync & (BearingNeedsSync | PitchNeedsSync) == 0
    ensures BearingNeedsSync & PitchNeedsSync == 0
  {
  }

  /** `mask |= flag`, the only way the item writes its mask, keeps every bit already set
      and sets `flag`. */
  lemma RaisingOnlyGains(mask: SyncMask, flag: SyncMask)
    ensures Includes(mask | flag, mask) && Includes(mask | flag, flag)
  {
  }

  /** Raising one of the known flags sets no bit outside them. */
  lemma RaisingKeepsKnownFlags(mask: SyncMask, flag: SyncMask)
    requires Includes(AllFlags, flag)
    ensures OnlyKnownFlags(mask) ==> OnlyKnownFlags(mask | flag)
  {
  }
}
