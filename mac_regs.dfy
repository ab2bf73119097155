/** Field layouts and sizing constants of the BCM63xx Ethernet MAC
    (drivers/net/ethernet/broadcom/bcm63xx_enet.h): the MII data register
    through which PHY registers are read and written, the receive and
    transmit maximum-length registers, and the transmit FIFO sizing rule. */
module EnetMac {
  import opened Wrappers

  // ---------------------------------------------------------------------
  // MII data register (ENET_MIIDATA_REG)

  const MiiDataReg: nat := 0x14

  const MiiDataShift: bv32 := 0
  const MiiDataMask: bv32 := 0xffff << MiiDataShift
  const MiiTaShift: bv32 := 16
  const MiiTaMask: bv32 := 0x3 << MiiTaShift
  const MiiRegShift: bv32 := 18
  const MiiRegMask: bv32 := 0x1f << MiiRegShift
  const MiiPhyIdShift: bv32 := 23
  const MiiPhyIdMask: bv32 := 0x1f << MiiPhyIdShift
  const MiiOpReadMask: bv32 := 0x6 << 28
  const MiiOpWriteMask: bv32 := 0x5 << 28

  /** The union of the four value fields. */
  const MiiFieldsMask: bv32 := MiiDataMask | MiiTaMask | MiiRegMask | MiiPhyIdMask

  /** The four value fields are pairwise disjoint and together cover bits
      0 .. 27; the two opcodes differ, sit in bits 28 .. 31 only, and so
      overlap none of the fields. */
  lemma MiiFieldLayout()
    ensures MiiDataMask & MiiTaMask == 0 && MiiDataMask & MiiRegMask == 0 && MiiDataMask & MiiPhyIdMask == 0
    ensures MiiTaMask & MiiRegMask == 0 && MiiTaMask & MiiPhyIdMask == 0 && MiiRegMask & MiiPhyIdMask == 0
    ensures MiiFieldsMask == 0x0fff_ffff
    ensures MiiOpReadMask != MiiOpWriteMask
    ensures MiiOpReadMask & MiiFieldsMask == 0 && MiiOpWriteMask & MiiFieldsMask == 0
  {
  }

  datatype MiiOp = MiiRead | MiiWrite

  function MiiOpMask(op: MiiOp): bv32
  {
    match op
    case MiiRead => MiiOpReadMask
    case MiiWrite => MiiOpWriteMask
  }

  /** One MII management transaction: opcode, PHY address, PHY register,
      turnaround bits and 16 data bits. */
  datatype MiiCommand = MiiCommand(op: MiiOp, phyId: bv32, reg: bv32, ta: bv32, data: bv32)

  /** Every value fits its field. */
  predicate WellFormed(c: MiiCommand)
  {
    c.phyId <= 0x1f && c.reg <= 0x1f && c.ta <= 0x3 && c.data <= 0xffff
  }

  /** The register word for a command: each value shifted to its field,
      or-ed with the opcode. */
  function EncodeMii(c: MiiCommand): bv32
  {
    MiiOpMask(c.op) | (c.phyId << MiiPhyIdShift) | (c.reg << MiiRegShift)
      | (c.ta << MiiTaShift) | (c.data << MiiDataShift)
  }

  /** (w & MASK) >> SHIFT: reads one field of a register word. */
  function Field(w: bv32, mask: bv32, shift: bv32): bv32
    requires shift < 32
  {
    (w & mask) >> shift
  }

  /** The command a register word holds, if its opcode bits are the read
      or the write opcode. What it decodes to fits every field and packs
      back to the same word: decoding loses no bit. */
  function DecodeMii(w: bv32): (r: Option<MiiCommand>)
    ensures r.Some? <==> w & !MiiFieldsMask == MiiOpReadMask || w & !MiiFieldsMask == MiiOpWriteMask
    ensures r.Some? ==> WellFormed(r.value) && EncodeMii(r.value) == w
  {
    var opBits := w & !MiiFieldsMask;
    if opBits != MiiOpReadMask && opBits != MiiOpWriteMask then None
    else
      var c := MiiCommand(if opBits == MiiOpReadMask then MiiRead else MiiWrite,
                          Field(w, MiiPhyIdMask, MiiPhyIdShift),
                          Field(w, MiiRegMask, MiiRegShift),
                          Field(w, MiiTaMask, MiiTaShift),
                          Field(w, MiiDataMask, MiiDataShift));
      MiiRepack(w, c.op);
      Some(c)
  }

  /** Packing a well-formed command and reading its fields back returns
      the command. */
  lemma MiiDecodeEncode(c: MiiCommand)
    requires WellFormed(c)
    ensures DecodeMii(EncodeMii(c)) == Some(c)
  {
    MiiFieldsOfEncode(c);
  }

  /** Each field of a packed well-formed command reads back as the value
      packed into it, and the bits outside the fields are the opcode. */
  lemma MiiFieldsOfEncode(c: MiiCommand)
    requires WellFormed(c)
    ensures var w := EncodeMii(c);
      && w & !MiiFieldsMask == MiiOpMask(c.op)
      && Field(w, MiiPhyIdMask, MiiPhyIdShift) == c.phyId
      && Field(w, MiiRegMask, MiiRegShift) == c.reg
      && Field(w, MiiTaMask, MiiTaShift) == c.ta
      && Field(w, MiiDataMask, MiiDataShift) == c.data
  {
    var w := EncodeMii(c);
    assert w & !MiiFieldsMask == MiiOpMask(c.op);
    assert Field(w, MiiPhyIdMask, MiiPhyIdShift) == c.phyId;
    assert Field(w, MiiRegMask, MiiRegShift) == c.reg;
    assert Field(w, MiiTaMask, MiiTaShift) == c.ta;
    assert Field(w, MiiDataMask, MiiDataShift) == c.data;
  }

  /** The fields of a word, read out under the word's own opcode, fit
      their widths and pack back to the word. */
  lemma MiiRepack(w: bv32, op: MiiOp)
    requires MiiOpMask(op) == w & !MiiFieldsMask
    ensures var c := MiiCommand(op, Field(w, MiiPhyIdMask, MiiPhyIdShift), Field(w, MiiRegMask, MiiRegShift),
                                Field(w, MiiTaMask, MiiTaShift), Field(w, MiiDataMask, MiiDataShift));
      WellFormed(c) && EncodeMii(c) == w
  {
    MiiWordFromFields(w);
  }

  /** A word is its opcode bits or-ed with each of its fields read out and
      shifted back into place. */
  lemma MiiWordFromFields(w: bv32)
    ensures (w & !MiiFieldsMask) | (Field(w, MiiPhyIdMask, MiiPhyIdShift) << MiiPhyIdShift)
      | (Field(w, MiiRegMask, MiiRegShift) << MiiRegShift) | (Field(w, MiiTaMask, MiiTaShift) << MiiTaShift)
      | (Field(w, MiiDataMask, MiiDataShift) << MiiDataShift) == w
  {
  }

  // ---------------------------------------------------------------------
  // Maximum frame length registers (ENET_RXMAXLEN_REG, ENET_TXMAXLEN_REG)

  const RxMaxLenReg: nat := 0x4
  const RxMaxLenShift: bv32 := 0
  const RxMaxLenMask: bv32 := 0x7ff << RxMaxLenShift
  const TxMaxLenReg: nat := 0x8
  const TxMaxLenShift: bv32 := 0
  const TxMaxLenMask: bv32 := 0x7ff << TxMaxLenShift

  /** BCMENET_MAX_MTU: largest frame, FCS included, the driver programs. */
  const MaxMtu: nat := 2046

  /** The 11-bit length field keeps exactly the lengths up to 2047. */
  lemma MaxLenFieldWidth(len: bv32)
    ensures Field(len << RxMaxLenShift, RxMaxLenMask, RxMaxLenShift) == len <==> len <= 0x7ff
    ensures Field(len << TxMaxLenShift, TxMaxLenMask, TxMaxLenShift) == len <==> len <= 0x7ff
  {
  }

  /** The maximum MTU fits both length fields and stays strictly below
      their all-ones value 2047, so one representable length lies above
      every accepted frame. */
  lemma MaxMtuFitsLengthFields()
    ensures Field((MaxMtu as bv32) << RxMaxLenShift, RxMaxLenMask, RxMaxLenShift) == MaxMtu as bv32
    ensures Field((MaxMtu as bv32) << TxMaxLenShift, TxMaxLenMask, TxMaxLenShift) == MaxMtu as bv32
    ensures MaxMtu < RxMaxLenMask as int && MaxMtu < TxMaxLenMask as int
  {
  }

  // ---------------------------------------------------------------------
  // Transmit FIFO sizing

  /** The transmit FIFO holds 256 bytes; DMA bursts and the transmit
      threshold are counted in 4-byte units. */
  const TxFifoBytes: nat := 256
  const DmaUnitBytes: nat := 4
  const DmaMaxBurst: nat := 16
  const SwDmaMaxBurst: nat := 8
  const TxFifoThresh: nat := 32


  /** A burst of either DMA burst length arriving when the FIFO holds the
      threshold amount does not overflow it. */
  lemma TxFifoNoOverflow()
    ensures (TxFifoThresh + DmaMaxBurst) * DmaUnitBytes <= TxFifoBytes
    ensures (TxFifoThresh + SwDmaMaxBurst) * DmaUnitBytes <= TxFifoBytes
  {
  }
}
