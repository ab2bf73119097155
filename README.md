# BCM63xx GPIO banks and Ethernet DMA register geometry in Dafny

This project models two self-contained pieces of the BCM63xx (MIPS SoC)
support code in the Linux kernel, and proves the facts the hardware
contract rests on.

- **GPIO bank partitioning** (`drivers/pinctrl/bcm63xx/pinctrl-bcm63xx.c`).
  The pin controller has `ngpio` pins behind a window of 32-bit bank
  registers. `bcm63xx_setup_gpio` creates one gpio chip per 32 pins, and the last
  chip takes the rest. Each chip is bound to a bank word; the number of chips
  comes from `ngpio` and the number of bank words from the window size. The words are
  read as one big-endian register, so chip 0 owns the last word.
  `bcm63xx_setup_pinranges` maps chip `i`'s line 0 to global pin `32 * i`.
  `bcm63xx_gpio_of_xlate` turns a device-tree pin number back into a
  chip-local line. Files: `gpio_banks.dfy` (the arithmetic, pure) and
  `gpio_setup.dfy` (the two loops that fill the caller's chip array in
  place, as methods over `array<GpioChip>`). `wrappers.dfy` holds the
  `Option` type both parts use.
- **Register geometry** (`drivers/net/ethernet/broadcom/bcm63xx_enet.h`).
  `dma_regs.dfy` models the DMA controller:
  - the global block, with the flow-control threshold registers and the
    flow-control channel bits;
  - the per-channel register and state-RAM blocks of the shared layout and
    of the 6345 variant;
  - the channel configuration and interrupt bits.

  `mac_regs.dfy` models the MAC:
  - the MII data word (opcode, PHY id, register, turnaround, data);
  - the 11-bit maximum-length fields against `BCMENET_MAX_MTU`;
  - the transmit FIFO sizing rule.

Kernel services the GPIO code calls become parameters that supply their
outcome: `devm_kasprintf` as `labelOk`, `bgpio_init` as `initRet` and
`devm_gpiochip_add_data` as `addRet`. The chip array is an `array` of
records updated in place, as the driver updates `gc[i]`.

Two observations about the source, both modelled as written. First,
`bcm63xx_setup_gpio` ignores the result of `devm_gpiochip_add_data`. The
model records the outcome in the chip's `registered` field, and
`SetupGpio` still returns 0. Second, the driver never checks that there are
as many bank words as chips. `RegOffset` shows that past the last bank word,
the offset falls before the register window.

## Model

| member | source | states |
|---|---|---|
| GpioBanks.ChipCount | drivers/pinctrl/bcm63xx/pinctrl-bcm63xx.c:16-17 | the chip count is the least number of 32-pin banks that hold `ngpio` pins (ceiling division) |
| GpioBanks.BankCount | drivers/pinctrl/bcm63xx/pinctrl-bcm63xx.c:51 | the bank count is the number of whole 4-byte words in a window of `sz` bytes |
| GpioBanks.ChipPins | drivers/pinctrl/bcm63xx/pinctrl-bcm63xx.c:62-63 | every chip below the chip count has 1 to 32 lines and stays within `ngpio`; all chips but the last are full, and the last one ends exactly at `ngpio` |
| GpioBanks.RegOffset | drivers/pinctrl/bcm63xx/pinctrl-bcm63xx.c:65-66 | a chip's bank-word offset is 4-aligned; for `i < banks` the word lies inside the banks, and for `i >= banks` (unchecked by the driver) the offset is negative |
| GpioBanks.RegOffsetReversed | drivers/pinctrl/bcm63xx/pinctrl-bcm63xx.c:65-66 | chip 0 owns the highest word; later chips own strictly lower words, 4 bytes per chip, so offsets are distinct |
| GpioBanks.RegOffsetInWindow | drivers/pinctrl/bcm63xx/pinctrl-bcm63xx.c:50-70 | for every chip with a bank word in the `sz`-byte data window, the 4-byte word at the chip's offset lies wholly within the first `sz` bytes |
| GpioBanks.PinsBelowPrefix | drivers/pinctrl/bcm63xx/pinctrl-bcm63xx.c:96-103 | the first k chips hold exactly `min(32k, ngpio)` pins |
| GpioBanks.PinsSumToNgpio | drivers/pinctrl/bcm63xx/pinctrl-bcm63xx.c:94-103 | the line counts of all chips sum to `ngpio` |
| GpioBanks.RangesContiguous | drivers/pinctrl/bcm63xx/pinctrl-bcm63xx.c:99-102 | each chip's pin range ends where the next chip's begins |
| GpioBanks.RangesDisjoint | drivers/pinctrl/bcm63xx/pinctrl-bcm63xx.c:99-102 | ranges of distinct chips do not overlap |
| GpioBanks.RangeOwner | drivers/pinctrl/bcm63xx/pinctrl-bcm63xx.c:94-103 | pin p lies in chip i's range if and only if `p < ngpio` and `i == p / 32`: the ranges cover exactly `[0, ngpio)`, and only one chip covers each pin |
| GpioBanks.OfXlate | drivers/pinctrl/bcm63xx/pinctrl-bcm63xx.c:20-39 | of_xlate succeeds if and only if the pin's bank is the queried chip and `pin % 32` is below the chip's line count. On success it returns a line in `[0, ngpio)` that sits at `pin - 32*chip`. Otherwise it returns -EINVAL. It writes args[1] to the flags cell only on success with a non-null pointer |
| GpioBanks.XlateRoundTrip | drivers/pinctrl/bcm63xx/pinctrl-bcm63xx.c:24-38 | every pin below `ngpio` is accepted by chip `pin / 32`, whose pin range maps the returned line back to the same pin |
| GpioBanks.XlateOnlyOwner | drivers/pinctrl/bcm63xx/pinctrl-bcm63xx.c:27-33 | a chip accepts exactly the pins below `ngpio` in its own bank, and its range maps the line back to the pin |
| GpioBanks.Decimal | drivers/pinctrl/bcm63xx/pinctrl-bcm63xx.c:58 | the `%i` rendering is a non-empty digit string of length 1 exactly for numbers below 10 |
| GpioBanks.DecimalInjective | drivers/pinctrl/bcm63xx/pinctrl-bcm63xx.c:58 | distinct chip numbers render to distinct strings |
| GpioBanks.LabelsDistinct | drivers/pinctrl/bcm63xx/pinctrl-bcm63xx.c:58 | the labels "bcm63xx-gpio.%i" of distinct chips differ |
| GpioSetup.ConfiguredChip | drivers/pinctrl/bcm63xx/pinctrl-bcm63xx.c:58-85 | a configured chip has 1 to 32 lines and its own label; its data and direction registers are 4 bytes wide and sit at one common offset from their bases, which for a chip with a bank word lies within the first `4 * banks` bytes; its pin ranges are kept |
| GpioSetup.ConfiguredChipsDistinct | drivers/pinctrl/bcm63xx/pinctrl-bcm63xx.c:57-85 | two distinct configured chips never share a label, a data register word or a direction register word |
| GpioSetup.FirstFailure | drivers/pinctrl/bcm63xx/pinctrl-bcm63xx.c:53-72 | this is the first chip whose label allocation or bgpio_init fails (or the chip count if none fails): no chip before it fails |
| GpioSetup.FirstFailureUnique | drivers/pinctrl/bcm63xx/pinctrl-bcm63xx.c:53-72 | the first failing chip is the only index with no failure before it and a failure (or the end) at it |
| GpioSetup.SetupGpio | drivers/pinctrl/bcm63xx/pinctrl-bcm63xx.c:43-89 | returns -ENOMEM, or bgpio_init's nonzero error, at the first failing chip, and 0 when none fails. Chips before that one are fully configured, with bank word `(banks - i - 1) * 4`, `ChipPins` lines, their label, the generic hooks and two-cell xlate. The failing chip is untouched after a label failure, and later chips are always untouched |
| GpioSetup.SetupPinRanges | drivers/pinctrl/bcm63xx/pinctrl-bcm63xx.c:91-104 | each of the `ceil(ngpio/32)` chips gains exactly the range mapping its line 0 to pin `32*i` over `ChipPins` lines; other chips are untouched |
| GpioSetup.ConfiguredChipTranslates | drivers/pinctrl/bcm63xx/pinctrl-bcm63xx.c:79-83 | after both setup loops, of_xlate on a configured chip uses the line count the setup stored. It accepts exactly that chip's pins, and the registered range maps each accepted line back to the pin |
| EnetDma.FlowChMask | drivers/net/ethernet/broadcom/bcm63xx_enet.h:109-111 | the flow-control mask of a channel is a single bit and never the controller enable bit |
| EnetDma.FlowChPairs | drivers/net/ethernet/broadcom/bcm63xx_enet.h:111 | channels 2k and 2k+1 share one flow-control bit, and channels of different pairs have disjoint bits (both directions) |
| EnetDma.FlowRegAlignment | drivers/net/ethernet/broadcom/bcm63xx_enet.h:113-120 | with their 6-byte stride, the flow-control registers are word-aligned exactly for even channels |
| EnetDma.FlowRegsDistinct | drivers/net/ethernet/broadcom/bcm63xx_enet.h:113-120 | no two (register, channel) pairs of FLOWCL/FLOWCH/BUFALLOC share an offset |
| EnetDma.FlowRegsBelowGlobalIrq | drivers/net/ethernet/broadcom/bcm63xx_enet.h:107-125 | for even channels up to 8, the flow-control registers lie between CFG and GLB_IRQSTAT; channel 10's FLOWCL would be GLB_IRQSTAT |
| EnetDma.DmacOffset | drivers/net/ethernet/broadcom/bcm63xx_enet.h:184-209 | every ENETDMAC register is word-aligned inside the 0x10-byte channel width |
| EnetDma.DmasOffset | drivers/net/ethernet/broadcom/bcm63xx_enet.h:212-224 | every ENETDMAS word is word-aligned inside the 0x10-byte channel width |
| EnetDma.DmacRegAt | drivers/net/ethernet/broadcom/bcm63xx_enet.h:184-209 | exactly the aligned offsets of a channel block name an ENETDMAC register |
| EnetDma.DmasRegAt | drivers/net/ethernet/broadcom/bcm63xx_enet.h:212-224 | exactly the aligned offsets of a state-RAM block name an ENETDMAS word |
| EnetDma.BlockOffsetsRoundTrip | drivers/net/ethernet/broadcom/bcm63xx_enet.h:184-224 | the channel-block and state-RAM offsets round-trip through their decoders in both directions, so each block's four registers are distinct |
| EnetDma.SharedLayoutIsStrided | drivers/net/ethernet/broadcom/bcm63xx_enet.h:104-159 | the shared ENETDMA_*_REG(x) offsets are the ENETDMAC/ENETDMAS block offsets repeated at stride ENETDMA_CHAN_WIDTH from 0x100 and 0x200 |
| EnetDma.SharedRegAt | drivers/net/ethernet/broadcom/bcm63xx_enet.h:130-159 | decoding a shared-layout offset yields a channel below 16 |
| EnetDma.SharedRegRoundTrip | drivers/net/ethernet/broadcom/bcm63xx_enet.h:130-159 | every (register, channel) pair with channel below 16 decodes back to itself |
| EnetDma.SharedRegAtIsOffset | drivers/net/ethernet/broadcom/bcm63xx_enet.h:130-159 | every offset that decodes is the offset of the pair it decodes to |
| EnetDma.SharedRegsDistinct | drivers/net/ethernet/broadcom/bcm63xx_enet.h:130-159 | CHANCFG, IR, IRMASK, MAXBURST, RSTART and SRAM2/3/4 of channels below 16 all have distinct offsets |
| EnetDma.SharedLayoutBoundary | drivers/net/ethernet/broadcom/bcm63xx_enet.h:131-150 | the shared layout holds exactly 16 channels: CHANCFG of channel 16 is RSTART of channel 0 |
| EnetDma.ChanCfgMask | drivers/net/ethernet/broadcom/bcm63xx_enet.h:184-197 | every CHANCFG mask is a single bit within bits 0-4 |
| EnetDma.ChanCfgAliasing | drivers/net/ethernet/broadcom/bcm63xx_enet.h:184-197 | two CHANCFG names share a bit if and only if they are the same name or are BUFHALT and CHAINING; otherwise their bits are disjoint |
| EnetDma.IrMask | drivers/net/ethernet/broadcom/bcm63xx_enet.h:199-203 | each channel interrupt cause is a single bit |
| EnetDma.ChannelBitsAgree | drivers/net/ethernet/broadcom/bcm63xx_enet.h:130-203 | the shared layout's CHANCFG EN/PKTHALT and IR masks equal the per-channel ones, and the interrupt causes are pairwise disjoint |
| EnetDma.Offset6345 | drivers/net/ethernet/broadcom/bcm63xx_enet.h:161-176 | every 6345 channel register is word-aligned inside the 0x40-byte 6345 channel width |
| EnetDma.Role6345At | drivers/net/ethernet/broadcom/bcm63xx_enet.h:161-176 | only aligned offsets inside the 0x40-byte block decode to a 6345 register |
| EnetDma.Layout6345RoundTrip | drivers/net/ethernet/broadcom/bcm63xx_enet.h:161-176 | the eight registers of enum bcm63xx_regs_enetdmac round-trip through the 6345 offsets in both directions |
| EnetDma.Offsets6345Distinct | drivers/net/ethernet/broadcom/bcm63xx_enet.h:161-176 | distinct 6345 registers never share a word |
| EnetMac.MiiFieldLayout | drivers/net/ethernet/broadcom/bcm63xx_enet.h:43-54 | DATA, TA, REG and PHYID are pairwise disjoint and together cover bits 0-27. The read and write opcodes differ, use only bits 28-31, and overlap no field |
| EnetMac.DecodeMii | drivers/net/ethernet/broadcom/bcm63xx_enet.h:43-54 | a word decodes if and only if its bits outside the fields are the read or the write opcode; what it decodes to fits every field and packs back to the same word, so decoding loses no bit |
| EnetMac.MiiDecodeEncode | drivers/net/ethernet/broadcom/bcm63xx_enet.h:43-54 | packing in-range values and extracting each field with `(w & MASK) >> SHIFT` returns the original command |
| EnetMac.MiiFieldsOfEncode | drivers/net/ethernet/broadcom/bcm63xx_enet.h:43-54 | in a packed in-range command, each field reads back as the value packed into it and the bits outside the fields are the opcode |
| EnetMac.MiiRepack | drivers/net/ethernet/broadcom/bcm63xx_enet.h:43-54 | the fields of a word, read out with `(w & MASK) >> SHIFT` under the word's own opcode, fit their widths and re-pack to the same word |
| EnetMac.MiiWordFromFields | drivers/net/ethernet/broadcom/bcm63xx_enet.h:43-52 | a word equals its opcode bits or-ed with each extracted field shifted back |
| EnetMac.MaxLenFieldWidth | drivers/net/ethernet/broadcom/bcm63xx_enet.h:26-34 | the RX and TX max-length fields keep a length unchanged if and only if it is at most 2047 |
| EnetMac.MaxMtuFitsLengthFields | drivers/net/ethernet/broadcom/bcm63xx_enet.h:297-302 | BCMENET_MAX_MTU (2046) survives both length fields and is strictly below their all-ones value 2047 |
| EnetMac.TxFifoNoOverflow | drivers/net/ethernet/broadcom/bcm63xx_enet.h:288-295 | threshold plus maximum burst, in 4-byte units, fits the 256-byte FIFO for both the MAC burst (16) and the switch burst (8) |

## Left out

- The DMA descriptor-ring engine is not part of this model. That covers posting, harvesting and reclaiming descriptors, NAPI polling, refill and its timer, interrupt handling, and programming the flow-control thresholds. Its implementation, bcm63xx_enet.c, is not part of this model either. Only its state is visible, in `struct bcm_enet_priv` and `struct bcm63xx_iudma_priv`. Modelling its operations would invent behaviour.
- The per-variant tables that map `enum bcm63xx_regs_enetdmac` to offsets, and the channel enable and interrupt masks, live in the driver source, which is not part of this model. Only the 6345 offsets, which the header defines for every enum entry, are modelled against the enum.
- The descriptor flag bits and the meaning of `ENETDMA_6345_DESC_SHIFT` depend on bcm63xx_iudma.h, which is not part of this model.
- Locks, timers and the work queue (`rx_lock`, `tx_lock`, `mib_update_lock`, `enetsw_mdio_lock`, `rx_timeout`, `swphy_poll`, `mib_update_task`) are concurrency and are not modelled.
- MIB counters are statistics aggregation and are left out. That covers `ENET_MIB_REG`, the ETH_MIB_* and ETHSW_MIB_* indices, and `struct bcm_enet_mib_counters`. The switch index `ETHSW_MIB_RX_8192_9728` equals `ENETSW_MIB_REG_COUNT` (47), so no "index below count" fact holds there.
- Also left out: the embedded-switch registers (ENETSW_*), the other MAC control bits (RXCFG, MIISC, CTL, TXCTL, TXWMARK, MIBCTL, perfect match) and the default ring sizes `BCMENET_DEF_RX_DESC`/`BCMENET_DEF_TX_DESC`. They belong to link handling, switch polling and the ring engine, none of which is modelled.
- `bcm63xx_pinctrl_register` is left out. It does platform resource lookup, ioremap, pinctrl registration and logging: I/O plumbing around the two setup loops.
- The kernel services `devm_kasprintf`, `bgpio_init`, `devm_gpiochip_add_data` and `gpiochip_add_pin_range` are not modelled. Their outcomes are parameters. What `bgpio_init` sets beyond the register binding (its accessor callbacks) is abstracted into `MmioBinding`.
- GpioSetup.SetupGpio: says nothing about the failing chip when bgpio_init fails, because what bgpio_init leaves in a chip on failure is not visible.
- GpioSetup.SetupPinRanges: always records the range, because the allocation failure of `gpiochip_add_pin_range` is ignored by the driver and its code is not visible.
- `GpioBanks.RangePin` is how this model reads `gpiochip_add_pin_range`, whose code is not part of this model: chip lines `[gpioOffset, gpioOffset + npins)` map to pins from `pinOffset` on. What the driver passes it (line 102) is covered by the XlateRoundTrip, XlateOnlyOwner and SetupPinRanges rows.
- The direction window's size is never read by the driver; only the data window's size `sz` is. The model, like the driver, assumes the direction window is at least as large, so `RegOffsetInWindow` bounds only the data register.
- `CONFIG_OF` is taken as enabled, so of_xlate and the two-cell specifier are always set.
- GpioBanks.OfXlate: takes the pin as the unsigned 32-bit `args[0]`, divided as an unsigned 32-bit value. This matches the 32-bit MIPS targets, where `int` to `size_t` conversion keeps the value. A 64-bit `size_t` would differ only for specifiers of 2^31 and above, which every chip rejects either way.
- Integer widths are not modelled for `ngpio` and `sz`: they are naturals. The driver's `int` arithmetic cannot overflow for real bank counts.
