/** Register geometry of the BCM63xx Ethernet DMA controller (the
    ENETDMA_*, ENETDMAC_*, ENETDMAS_* and ENETDMA_6345_* definitions of
    drivers/net/ethernet/broadcom/bcm63xx_enet.h).

    The controller has a global block (configuration, flow-control
    thresholds, global interrupt status and mask) and, per channel, a block
    of channel registers (configuration, interrupt status, interrupt mask,
    maximum burst) and a block of state-RAM words (ring start and three
    state words). In the shared layout the channel blocks are laid out at
    0x100 and the state-RAM blocks at 0x200, one 0x10-byte slot per
    channel; the 6345 variant instead gives every channel one 0x40-byte
    block holding all its registers. */
module EnetDma {
  import opened Wrappers

  /** ENETDMA_CHAN_WIDTH and ENETDMA_6345_CHAN_WIDTH: bytes of register
      space per channel. */
  const ChanWidth: nat := 0x10
  const ChanWidth6345: nat := 0x40

  /** Registers are 32-bit words. */
  const RegBytes: nat := 4

  // ---------------------------------------------------------------------
  // Global block

  const CfgReg: nat := 0x0
  const CfgEnShift: nat := 0
  const CfgEnMask: bv32 := 1 << CfgEnShift
  const GlbIrqStatReg: nat := 0x40
  const GlbIrqMaskReg: nat := 0x44
  const BufAllocForceShift: nat := 31
  const BufAllocForceMask: bv32 := 1 << BufAllocForceShift

  /** ENETDMA_CFG_FLOWCH_MASK(x) = 1 << ((x >> 1) + 1): the flow-control
      enable bit of channel `x` in the configuration register. A shift by
      32 or more is undefined in C, hence the bound on `x`. */
  function FlowChMask(x: nat): (m: bv32)
    requires x / 2 + 1 < 32
    ensures m != 0 && m & (m - 1) == 0
    ensures m & CfgEnMask == 0
  {
    1 << (x / 2 + 1)
  }

  /** Channels 2k and 2k+1 share one flow-control
      bit; channels of different pairs have disjoint bits. */
  lemma FlowChPairs(x: nat, y: nat)
    requires x / 2 + 1 < 32 && y / 2 + 1 < 32
    ensures FlowChMask(x) == FlowChMask(y) <==> x / 2 == y / 2
    ensures x / 2 != y / 2 ==> FlowChMask(x) & FlowChMask(y) == 0
  {
  }

  /** The three flow-control registers of the global block. */
  datatype FlowReg = FlowLow | FlowHigh | BufAlloc

  /** ENETDMA_FLOWCL_REG(x) = 0x4 + x*6, ENETDMA_FLOWCH_REG(x) = 0x8 + x*6,
      ENETDMA_BUFALLOC_REG(x) = 0xc + x*6. */
  function FlowRegOffset(r: FlowReg, x: nat): nat
  {
    match r
    case FlowLow => 0x4 + x * 6
    case FlowHigh => 0x8 + x * 6
    case BufAlloc => 0xc + x * 6
  }

  /** The stride of 6 bytes per channel gives word-aligned registers only
      for even channels: channel 2k has its three registers at
      4 + 12k, 8 + 12k and 12 + 12k, and an odd channel's fall between
      words. */
  lemma FlowRegAlignment(r: FlowReg, x: nat)
    ensures FlowRegOffset(r, x) % RegBytes == 0 <==> x % 2 == 0
  {
  }

  /** The flow-control registers never collide with each other, across
      channels and register kinds: the three kinds sit 4 bytes apart and a
      channel's stride is 6, so no two (kind, channel) pairs meet. */
  lemma FlowRegsDistinct(r1: FlowReg, x1: nat, r2: FlowReg, x2: nat)
    requires FlowRegOffset(r1, x1) == FlowRegOffset(r2, x2)
    ensures r1 == r2 && x1 == x2
  {
  }

  /** The flow-control registers of the even channels 0 .. 8 fit between
      the configuration register and the global interrupt status register;
      channel 10's low threshold would land on the status register. */
  lemma FlowRegsBelowGlobalIrq(r: FlowReg, x: nat)
    ensures x % 2 == 0 && x < 10 ==> CfgReg < FlowRegOffset(r, x) && FlowRegOffset(r, x) + RegBytes <= GlbIrqStatReg
    ensures FlowRegOffset(FlowLow, 10) == GlbIrqStatReg
  {
  }

  // ---------------------------------------------------------------------
  // Per-channel blocks of the shared layout

  /** Registers of a channel block (ENETDMAC_*). */
  datatype ChanReg = ChanCfg | ChanIr | ChanIrMask | ChanMaxBurst

  /** Words of a state-RAM block (ENETDMAS_*). */
  datatype StateRamReg = RingStart | StateRam2 | StateRam3 | StateRam4

  /** Offset of a register inside its channel block. */
  function DmacOffset(r: ChanReg): (off: nat)
    ensures off % RegBytes == 0 && off + RegBytes <= ChanWidth
  {
    match r
    case ChanCfg => 0x0
    case ChanIr => 0x4
    case ChanIrMask => 0x8
    case ChanMaxBurst => 0xc
  }

  /** Offset of a word inside its state-RAM block. */
  function DmasOffset(r: StateRamReg): (off: nat)
    ensures off % RegBytes == 0 && off + RegBytes <= ChanWidth
  {
    match r
    case RingStart => 0x0
    case StateRam2 => 0x4
    case StateRam3 => 0x8
    case StateRam4 => 0xc
  }

  /** Inverse of DmacOffset on the 16 bytes of a channel block. */
  function DmacRegAt(off: nat): (r: Option<ChanReg>)
    ensures r.Some? <==> off < ChanWidth && off % RegBytes == 0
  {
    if off == 0x0 then Some(ChanCfg)
    else if off == 0x4 then Some(ChanIr)
    else if off == 0x8 then Some(ChanIrMask)
    else if off == 0xc then Some(ChanMaxBurst)
    else None
  }

  /** Inverse of DmasOffset on the 16 bytes of a state-RAM block. */
  function DmasRegAt(off: nat): (r: Option<StateRamReg>)
    ensures r.Some? <==> off < ChanWidth && off % RegBytes == 0
  {
    if off == 0x0 then Some(RingStart)
    else if off == 0x4 then Some(StateRam2)
    else if off == 0x8 then Some(StateRam3)
    else if off == 0xc then Some(StateRam4)
    else None
  }

  /** Channel-block and state-RAM offsets round-trip through their
      decoders, in both directions. */
  lemma BlockOffsetsRoundTrip(c: ChanReg, s: StateRamReg, off: nat)
    ensures DmacRegAt(DmacOffset(c)) == Some(c)
    ensures DmasRegAt(DmasOffset(s)) == Some(s)
    ensures DmacRegAt(off).Some? ==> DmacOffset(DmacRegAt(off).value) == off
    ensures DmasRegAt(off).Some? ==> DmasOffset(DmasRegAt(off).value) == off
  {
  }

  /** A per-channel register of the shared layout. */
  datatype SharedReg = Dmac(c: ChanReg) | Dmas(s: StateRamReg)

  /** ENETDMA_CHANCFG_REG(x) = 0x100 + x*0x10, ENETDMA_IR_REG(x) = 0x104 + ...,
      ENETDMA_IRMASK_REG(x) = 0x108 + ..., ENETDMA_MAXBURST_REG(x) = 0x10C + ...,
      ENETDMA_RSTART_REG(x) = 0x200 + ..., ENETDMA_SRAM2/3/4_REG(x) =
      0x204/0x208/0x20c + x*0x10. */
  function SharedRegOffset(r: SharedReg, x: nat): nat
  {
    match r
    case Dmac(ChanCfg) => 0x100 + x * 0x10
    case Dmac(ChanIr) => 0x104 + x * 0x10
    case Dmac(ChanIrMask) => 0x108 + x * 0x10
    case Dmac(ChanMaxBurst) => 0x10C + x * 0x10
    case Dmas(RingStart) => 0x200 + x * 0x10
    case Dmas(StateRam2) => 0x204 + x * 0x10
    case Dmas(StateRam3) => 0x208 + x * 0x10
    case Dmas(StateRam4) => 0x20c + x * 0x10
  }

  /** Start of the channel blocks and of the state-RAM blocks. */
  const DmacBlocksBase: nat := 0x100
  const DmasBlocksBase: nat := 0x200

  /** Channels whose blocks fit between the two bases. */
  const SharedChannels: nat := (DmasBlocksBase - DmacBlocksBase) / ChanWidth

  /** The shared layout is the per-channel layout repeated at a stride of
      ENETDMA_CHAN_WIDTH: channel x's register sits at its block's base,
      plus x channel widths, plus the register's offset in the block. */
  lemma SharedLayoutIsStrided(r: SharedReg, x: nat)
    ensures r.Dmac? ==> SharedRegOffset(r, x) == DmacBlocksBase + x * ChanWidth + DmacOffset(r.c)
    ensures r.Dmas? ==> SharedRegOffset(r, x) == DmasBlocksBase + x * ChanWidth + DmasOffset(r.s)
  {
  }

  /** Which per-channel register of the shared layout sits at `off`, and
      for which channel. */
  function SharedRegAt(off: nat): (r: Option<(SharedReg, nat)>)
    ensures r.Some? ==> r.value.1 < SharedChannels
  {
    if off < DmacBlocksBase || off >= DmasBlocksBase + SharedChannels * ChanWidth then None
    else if off < DmasBlocksBase then
      var rel := off - DmacBlocksBase;
      match DmacRegAt(rel % ChanWidth)
      case Some(c) => Some((Dmac(c), rel / ChanWidth))
      case None => None
    else
      var rel := off - DmasBlocksBase;
      match DmasRegAt(rel % ChanWidth)
      case Some(s) => Some((Dmas(s), rel / ChanWidth))
      case None => None
  }

  /** Every register of the 16 channels decodes back to itself. */
  lemma SharedRegRoundTrip(r: SharedReg, x: nat)
    requires x < SharedChannels
    ensures SharedRegAt(SharedRegOffset(r, x)) == Some((r, x))
  {
    SharedLayoutIsStrided(r, x);
    BlockOffsetsRoundTrip(if r.Dmac? then r.c else ChanCfg, if r.Dmas? then r.s else RingStart, 0);
    var off := SharedRegOffset(r, x);
    if r.Dmac? {
      assert (off - DmacBlocksBase) / ChanWidth == x;
      assert (off - DmacBlocksBase) % ChanWidth == DmacOffset(r.c);
    } else {
      assert (off - DmasBlocksBase) / ChanWidth == x;
      assert (off - DmasBlocksBase) % ChanWidth == DmasOffset(r.s);
    }
  }

  /** Every offset that decodes is the offset of what it decodes to. */
  lemma SharedRegAtIsOffset(off: nat)
    requires SharedRegAt(off).Some?
    ensures SharedRegOffset(SharedRegAt(off).value.0, SharedRegAt(off).value.1) == off
  {
    var (r, x) := SharedRegAt(off).value;
    SharedLayoutIsStrided(r, x);
    if off < DmasBlocksBase {
      var rel := off - DmacBlocksBase;
      BlockOffsetsRoundTrip(ChanCfg, RingStart, rel % ChanWidth);
      assert rel == x * ChanWidth + rel % ChanWidth;
    } else {
      var rel := off - DmasBlocksBase;
      BlockOffsetsRoundTrip(ChanCfg, RingStart, rel % ChanWidth);
      assert rel == x * ChanWidth + rel % ChanWidth;
    }
  }

  /** Distinct (register, channel) pairs of the first 16 channels have
      distinct offsets. */
  lemma SharedRegsDistinct(r1: SharedReg, x1: nat, r2: SharedReg, x2: nat)
    requires x1 < SharedChannels && x2 < SharedChannels
    requires SharedRegOffset(r1, x1) == SharedRegOffset(r2, x2)
    ensures r1 == r2 && x1 == x2
  {
    SharedRegRoundTrip(r1, x1);
    SharedRegRoundTrip(r2, x2);
  }

  /** The layout has room for exactly 16 channels: channel 16's
      configuration register is channel 0's ring start register. */
  lemma SharedLayoutBoundary()
    ensures SharedChannels == 16
    ensures SharedRegOffset(Dmac(ChanCfg), SharedChannels) == SharedRegOffset(Dmas(RingStart), 0)
  {
  }

  // ---------------------------------------------------------------------
  // Channel configuration and interrupt bits

  /** Bits of the channel configuration register (ENETDMAC_CHANCFG_*). */
  datatype ChanCfgBit = CfgEn | CfgPktHalt | CfgBufHalt | CfgChaining | CfgWrapEn | CfgFlowcEn

  function ChanCfgShift(b: ChanCfgBit): nat
  {
    match b
    case CfgEn => 0
    case CfgPktHalt => 1
    case CfgBufHalt => 2
    case CfgChaining => 2
    case CfgWrapEn => 3
    case CfgFlowcEn => 4
  }

  /** ENETDMAC_CHANCFG_*_MASK = 1 << ENETDMAC_CHANCFG_*_SHIFT. */
  function ChanCfgMask(b: ChanCfgBit): (m: bv32)
    ensures m != 0 && m & (m - 1) == 0
    ensures m & !0x1f == 0
  {
    1 << ChanCfgShift(b)
  }

  /** BUFHALT and CHAINING name the same bit; every other pair of names
      are different single bits. */
  lemma ChanCfgAliasing(a: ChanCfgBit, b: ChanCfgBit)
    ensures ChanCfgMask(a) == ChanCfgMask(b) <==>
      a == b || ({a, b} == {CfgBufHalt, CfgChaining})
    ensures ChanCfgMask(a) != ChanCfgMask(b) ==> ChanCfgMask(a) & ChanCfgMask(b) == 0
  {
    if a != b && ChanCfgShift(a) == ChanCfgShift(b) {
      assert {a, b} == {CfgBufHalt, CfgChaining} by {
        assert a == CfgBufHalt || a == CfgChaining;
        assert b == CfgBufHalt || b == CfgChaining;
      }
    }
    if {a, b} == {CfgBufHalt, CfgChaining} {
      assert a in {CfgBufHalt, CfgChaining} && b in {CfgBufHalt, CfgChaining};
    }
  }

  /** ENETDMA_CHANCFG_EN_MASK and ENETDMA_CHANCFG_PKTHALT_MASK of the
      shared layout. */
  const SharedChanCfgEnMask: bv32 := 1 << 0
  const SharedChanCfgPktHaltMask: bv32 := 1 << 1

  /** Bits of the channel interrupt status and mask registers. */
  datatype IrBit = BufDone | PktDone | NotOwner

  /** ENETDMAC_IR_*_MASK. */
  function IrMask(b: IrBit): (m: bv32)
    ensures m != 0 && m & (m - 1) == 0
  {
    match b
    case BufDone => 1 << 0
    case PktDone => 1 << 1
    case NotOwner => 1 << 2
  }

  /** ENETDMA_IR_*_MASK of the shared layout. */
  function SharedIrMask(b: IrBit): bv32
  {
    match b
    case BufDone => 1 << 0
    case PktDone => 1 << 1
    case NotOwner => 1 << 2
  }

  /** Both layouts agree on the meaning of the channel configuration and
      interrupt bits, and the interrupt causes are distinct bits. */
  lemma ChannelBitsAgree(a: IrBit, b: IrBit)
    ensures SharedChanCfgEnMask == ChanCfgMask(CfgEn)
    ensures SharedChanCfgPktHaltMask == ChanCfgMask(CfgPktHalt)
    ensures SharedIrMask(a) == IrMask(a)
    ensures a != b ==> IrMask(a) & IrMask(b) == 0
  {
  }

  // ---------------------------------------------------------------------
  // The 6345 layout

  /** The channel registers by role (enum bcm63xx_regs_enetdmac). */
  datatype DmacRole = RoleChanCfg | RoleIr | RoleIrMask | RoleMaxBurst | RoleBufAlloc | RoleRStart | RoleFc | RoleLen

  /** ENETDMA_6345_*_REG: offset of each register in a 6345 channel block. */
  function Offset6345(r: DmacRole): (off: nat)
    ensures off % RegBytes == 0 && off + RegBytes <= ChanWidth6345
  {
    match r
    case RoleChanCfg => 0x00
    case RoleMaxBurst => 0x04
    case RoleRStart => 0x08
    case RoleLen => 0x0C
    case RoleIr => 0x14
    case RoleIrMask => 0x18
    case RoleFc => 0x1C
    case RoleBufAlloc => 0x20
  }

  /** Which 6345 register sits at `off` of a channel block. */
  function Role6345At(off: nat): (r: Option<DmacRole>)
    ensures r.Some? ==> off % RegBytes == 0 && off < ChanWidth6345
  {
    if off == 0x00 then Some(RoleChanCfg)
    else if off == 0x04 then Some(RoleMaxBurst)
    else if off == 0x08 then Some(RoleRStart)
    else if off == 0x0C then Some(RoleLen)
    else if off == 0x14 then Some(RoleIr)
    else if off == 0x18 then Some(RoleIrMask)
    else if off == 0x1C then Some(RoleFc)
    else if off == 0x20 then Some(RoleBufAlloc)
    else None
  }

  /** The 6345 offsets round-trip in both directions, so the eight
      registers occupy eight distinct words of the 0x40-byte block. */
  lemma Layout6345RoundTrip(r: DmacRole, off: nat)
    ensures Role6345At(Offset6345(r)) == Some(r)
    ensures Role6345At(off).Some? ==> Offset6345(Role6345At(off).value) == off
  {
  }

  /** Corollary: distinct 6345 registers never share a word. */
  lemma Offsets6345Distinct(a: DmacRole, b: DmacRole)
    requires a != b
    ensures Offset6345(a) != Offset6345(b)
  {
    Layout6345RoundTrip(a, 0);
    Layout6345RoundTrip(b, 0);
  }
}
