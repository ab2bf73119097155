/** The two loops of the BCM63xx pin controller driver that fill the
    caller's array of gpio chips in place: bcm63xx_setup_gpio binds one
    chip per 32 pins to a bank word and bcm63xx_setup_pinranges registers
    each chip's pin range. The kernel services they call (label allocation, generic
    MMIO gpio setup, chip and range registration) are not modelled; their
    outcomes are parameters. */
module GpioSetup {
  import opened Wrappers
  import opened GpioBanks

  /** What bgpio_init binds a chip to: one big-endian data register and one
      direction register of `width` bytes, given as byte offsets into the
      mapped data and direction windows. */
  datatype MmioBinding = MmioBinding(width: nat, dat: int, dirout: int, bigEndian: bool)

  /** The fields of struct gpio_chip this driver sets. `hooks` stands for
      request/free = gpiochip_generic_request/free and `ofXlate` for the
      translation hook being bcm63xx_gpio_of_xlate; `ranges` are the pin
      ranges registered on the chip. */
  datatype GpioChip = GpioChip(
    chipLabel: Option<string>,
    ngpio: nat,
    mmio: Option<MmioBinding>,
    hooks: bool,
    ofGpioNCells: nat,
    ofXlate: bool,
    registered: bool,
    ranges: seq<PinRange>)

  /** Chip `i` as bcm63xx_setup_gpio leaves it once every step succeeded;
      `registered` is the outcome of devm_gpiochip_add_data. The chip has
      between 1 and 32 lines, drives its data and direction registers at
      one common offset from the two bases, and when the window has a bank
      word for it that word lies within the first 4 * banks bytes of each
      base. Its pin ranges are those it had. */
  function ConfiguredChip(c: GpioChip, i: nat, ngpio: nat, banks: int, data: int, dirout: int, registered: bool): (r: GpioChip)
    requires i < ChipCount(ngpio)
    ensures 1 <= r.ngpio <= PinsPerBank
    ensures r.chipLabel == Some(Label(i))
    ensures r.mmio.Some? && r.mmio.value.width == BankSize
    ensures r.mmio.value.dat - data == r.mmio.value.dirout - dirout
    ensures 0 <= i < banks ==>
      data <= r.mmio.value.dat && r.mmio.value.dat + BankSize <= data + BankSize * banks
    ensures r.ranges == c.ranges
  {
    var off := RegOffset(banks, i);
    c.(chipLabel := Some(Label(i)),
       ngpio := ChipPins(ngpio, i),
       mmio := Some(MmioBinding(BankSize, data + off, dirout + off, true)),
       hooks := true,
       ofGpioNCells := 2,
       ofXlate := true,
       registered := registered)
  }

  /** Two distinct chips of one setup never share a label or a data
      register word. */
  lemma ConfiguredChipsDistinct(c1: GpioChip, c2: GpioChip, i: nat, j: nat, ngpio: nat, banks: int,
                                data: int, dirout: int, reg1: bool, reg2: bool)
    requires i < ChipCount(ngpio) && j < ChipCount(ngpio) && i != j
    ensures var g1 := ConfiguredChip(c1, i, ngpio, banks, data, dirout, reg1);
      var g2 := ConfiguredChip(c2, j, ngpio, banks, data, dirout, reg2);
      g1.chipLabel != g2.chipLabel && g1.mmio.value.dat != g2.mmio.value.dat
      && g1.mmio.value.dirout != g2.mmio.value.dirout
  {
    LabelsDistinct(i, j);
    if i < j {
      RegOffsetReversed(banks, i, j);
    } else {
      RegOffsetReversed(banks, j, i);
    }
  }

  /** Chip `i` fails to set up when its label cannot be allocated or
      bgpio_init returns an error. */
  predicate ChipSetupFails(labelOk: nat -> bool, initRet: nat -> int, i: nat)
  {
    !labelOk(i) || initRet(i) != 0
  }

  /** The first chip at or after `from` that fails to set up, or `chips`
      if none does. */
  function FirstFailure(labelOk: nat -> bool, initRet: nat -> int, from: nat, chips: nat): (k: nat)
    requires from <= chips
    ensures from <= k <= chips
    ensures forall j :: from <= j < k ==> !ChipSetupFails(labelOk, initRet, j)
    ensures k < chips ==> ChipSetupFails(labelOk, initRet, k)
    decreases chips - from
  {
    if from == chips then chips
    else if ChipSetupFails(labelOk, initRet, from) then from
    else FirstFailure(labelOk, initRet, from + 1, chips)
  }

  /** The first failure is the only index with no failure before it and a
      failure (or the end) at it. */
  lemma FirstFailureUnique(labelOk: nat -> bool, initRet: nat -> int, chips: nat, k: nat)
    requires k <= chips
    requires forall j :: 0 <= j < k ==> !ChipSetupFails(labelOk, initRet, j)
    requires k < chips ==> ChipSetupFails(labelOk, initRet, k)
    ensures FirstFailure(labelOk, initRet, 0, chips) == k
  {
  }

  /** bcm63xx_setup_gpio. For chip i = 0, 1, ...: allocate its label
      (`labelOk(i)`), call bgpio_init on its bank word (`initRet(i)`), set
      the hooks, label and line count, and register it (`addRet(i)`).
      Returns -ENOMEM or bgpio_init's error at the first chip that fails,
      leaving later chips untouched; returns 0 otherwise. The registration
      result is recorded in the chip but, as in the driver, never returned. */
  method SetupGpio(gc: array<GpioChip>, data: int, dirout: int, sz: nat, ngpio: nat,
                   labelOk: nat -> bool, initRet: nat -> int, addRet: nat -> int)
    returns (ret: int)
    requires ChipCount(ngpio) <= gc.Length
    modifies gc
    ensures var fail := FirstFailure(labelOk, initRet, 0, ChipCount(ngpio));
      && (fail == ChipCount(ngpio) ==> ret == 0)
      && (fail < ChipCount(ngpio) && !labelOk(fail) ==> ret == -ENOMEM)
      && (fail < ChipCount(ngpio) && labelOk(fail) ==> ret == initRet(fail) && ret != 0)
      && (forall j :: 0 <= j < fail ==>
            gc[j] == ConfiguredChip(old(gc[j]), j, ngpio, BankCount(sz), data, dirout, addRet(j) == 0))
      && (forall j :: fail < j < gc.Length ==> gc[j] == old(gc[j]))
      && (fail < gc.Length && (fail == ChipCount(ngpio) || !labelOk(fail)) ==> gc[fail] == old(gc[fail]))
  {
    var chips := ChipCount(ngpio);
    var banks := BankCount(sz);
    var i := 0;
    while i < chips
      invariant 0 <= i <= chips
      invariant forall j :: 0 <= j < i ==> !ChipSetupFails(labelOk, initRet, j)
      invariant forall j :: 0 <= j < i ==>
        gc[j] == ConfiguredChip(old(gc[j]), j, ngpio, banks, data, dirout, addRet(j) == 0)
      invariant forall j :: i <= j < gc.Length ==> gc[j] == old(gc[j])
    {
      if !labelOk(i) {
        FirstFailureUnique(labelOk, initRet, chips, i);
        return -ENOMEM;
      }
      var chipLabel := Label(i);
      var pins := ChipPins(ngpio, i);
      var regOffset := RegOffset(banks, i);
      ret := initRet(i);
      if ret != 0 {
        FirstFailureUnique(labelOk, initRet, chips, i);
        return ret;
      }
      gc[i] := gc[i].(mmio := Some(MmioBinding(BankSize, data + regOffset, dirout + regOffset, true)),
                      hooks := true,
                      ofGpioNCells := 2,
                      ofXlate := true);
      gc[i] := gc[i].(chipLabel := Some(chipLabel), ngpio := pins);
      gc[i] := gc[i].(registered := addRet(i) == 0);
      i := i + 1;
    }
    FirstFailureUnique(labelOk, initRet, chips, chips);
    return 0;
  }

  /** bcm63xx_setup_pinranges: registers on each chip the range that maps
      its line 0 to global pin 32 * i and covers its lines. */
  method SetupPinRanges(gc: array<GpioChip>, name: string, ngpio: nat)
    requires ChipCount(ngpio) <= gc.Length
    modifies gc
    ensures forall j :: 0 <= j < ChipCount(ngpio) ==>
      gc[j] == old(gc[j]).(ranges := old(gc[j].ranges) + [ChipPinRange(name, ngpio, j)])
    ensures forall j :: ChipCount(ngpio) <= j < gc.Length ==> gc[j] == old(gc[j])
  {
    var chips := ChipCount(ngpio);
    var i := 0;
    while i < chips
      invariant 0 <= i <= chips
      invariant forall j :: 0 <= j < i ==>
        gc[j] == old(gc[j]).(ranges := old(gc[j].ranges) + [ChipPinRange(name, ngpio, j)])
      invariant forall j :: i <= j < gc.Length ==> gc[j] == old(gc[j])
    {
      var offset := ChipBase(i);
      var pins := ChipPins(ngpio, i);
      gc[i] := gc[i].(ranges := gc[i].ranges + [PinRange(name, 0, offset, pins)]);
      i := i + 1;
    }
  }

  /** After both setup loops, a configured chip's own line count is what
      of_xlate checks, and the range last registered on it maps each line
      of_xlate yields back to the pin of the specifier. */
  lemma ConfiguredChipTranslates(c: GpioChip, name: string, i: nat, ngpio: nat, banks: int,
                                 data: int, dirout: int, registered: bool,
                                 spec: GpioSpec, flags: Option<u32>)
    requires i < ChipCount(ngpio)
    ensures var g := ConfiguredChip(c, i, ngpio, banks, data, dirout, registered);
      var g' := g.(ranges := g.ranges + [ChipPinRange(name, ngpio, i)]);
      var r := OfXlate(i, g'.ngpio, spec, flags);
      && (r.ret >= 0 <==> spec.pin as int < ngpio && spec.pin as int / PinsPerBank == i)
      && (r.ret >= 0 ==> RangePin(g'.ranges[|g'.ranges| - 1], r.ret) == Some(spec.pin as int))
  {
    XlateOnlyOwner(name, ngpio, i, spec, flags);
  }
}
