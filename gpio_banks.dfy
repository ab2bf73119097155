/** Pin arithmetic of the BCM63xx GPIO controller.

    The controller exposes `ngpio` pins through a window of 32-bit bank
    registers. The driver splits the pins into one gpio chip per 32 pins
    (the last one possibly shorter), binds every chip to a bank word,
    registers a pin range that maps the chip's local lines onto the global
    pin numbers, and translates device-tree pin specifiers back into a
    chip-local line. Everything here is the integer arithmetic of
    that scheme and the facts it guarantees. */
module GpioBanks {
  import opened Wrappers

  /** Width of one bank register in bytes: sizeof(u32). */
  const BankSize: nat := 4
  const BitsPerByte: nat := 8
  /** One pin per bit of a bank register. */
  const PinsPerBank: nat := BankSize * BitsPerByte

  /** Linux error numbers returned (negated) by the driver. */
  const EINVAL: int := 22
  const ENOMEM: int := 12

  newtype u32 = x: int | 0 <= x < 0x1_0000_0000

  function Min(a: int, b: int): int { if a < b then a else b }

  // ---------------------------------------------------------------------
  // Chips, banks and register words

  /** DIV_ROUND_UP(ngpio, PINS_PER_BANK): the number of chips, the least
      number of 32-pin banks that hold `ngpio` pins. */
  function ChipCount(ngpio: nat): (chips: nat)
    ensures PinsPerBank * chips >= ngpio
    ensures chips > 0 ==> PinsPerBank * (chips - 1) < ngpio
  {
    (ngpio + PinsPerBank - 1) / PinsPerBank
  }

  /** sz / BANK_SIZE: how many whole bank words the register window holds. */
  function BankCount(sz: nat): (banks: nat)
    ensures BankSize * banks <= sz < BankSize * (banks + 1)
  {
    sz / BankSize
  }

  /** i * PINS_PER_BANK: the first global pin of chip `i`. */
  function ChipBase(i: nat): nat
  {
    i * PinsPerBank
  }

  /** min_t(int, ngpio - offset, PINS_PER_BANK): the number of lines of
      chip `i`. Every chip is full except the last, which takes the rest. */
  function ChipPins(ngpio: nat, i: nat): (pins: int)
    ensures i < ChipCount(ngpio) ==> 1 <= pins <= PinsPerBank && ChipBase(i) + pins <= ngpio
    ensures i + 1 < ChipCount(ngpio) ==> pins == PinsPerBank
    ensures i + 1 == ChipCount(ngpio) ==> ChipBase(i) + pins == ngpio
  {
    Min(ngpio - ChipBase(i), PinsPerBank)
  }

  /** (banks - i - 1) * BANK_SIZE: the byte offset of chip `i`'s bank word.
      The bank words are read as one big-endian register, so chip 0 owns
      the last word of the window. The driver does not check `i < banks`;
      past that the offset falls before the window. */
  function RegOffset(banks: int, i: int): (off: int)
    ensures 0 <= i < banks ==> 0 <= off && off + BankSize <= BankSize * banks
    ensures off % BankSize == 0
    ensures i >= banks ==> off < 0
  {
    (banks - i - 1) * BankSize
  }

  /** Chip 0 owns the highest word, and a later chip always owns a lower
      word than an earlier one; in particular distinct chips own distinct
      words. */
  lemma RegOffsetReversed(banks: int, i: int, j: int)
    requires i < j
    ensures RegOffset(banks, i) == RegOffset(banks, j) + (j - i) * BankSize
    ensures RegOffset(banks, i) > RegOffset(banks, j)
    ensures RegOffset(banks, 0) == BankSize * (banks - 1)
  {
  }

  /** Whenever the data window of `sz` bytes has a bank word for chip `i`,
      the word at the chip's offset lies wholly inside the first `sz` bytes.
      Only the data window's size is known; the direction register sits at
      the same offset from its own base, which the driver assumes is at
      least as large. */
  lemma RegOffsetInWindow(sz: nat, i: nat)
    requires i < BankCount(sz)
    ensures 0 <= RegOffset(BankCount(sz), i)
    ensures RegOffset(BankCount(sz), i) + BankSize <= sz
  {
  }

  // ---------------------------------------------------------------------
  // Pin ranges

  /** Arguments of gpiochip_add_pin_range: chip lines
      [gpioOffset, gpioOffset + npins) map to the pin controller's pins
      [pinOffset, pinOffset + npins). */
  datatype PinRange = PinRange(name: string, gpioOffset: nat, pinOffset: nat, npins: int)

  /** How this model reads gpiochip_add_pin_range, whose code is not part
      of the model: the global pin a range assigns to chip line `line`, if
      it covers it. */
  function RangePin(r: PinRange, line: nat): (p: Option<nat>)
    ensures p.Some? <==> r.gpioOffset <= line < r.gpioOffset + r.npins
    ensures p.Some? ==> p.value - r.pinOffset == line - r.gpioOffset
  {
    if r.gpioOffset <= line < r.gpioOffset + r.npins then Some(r.pinOffset + line - r.gpioOffset) else None
  }

  /** The range registered for chip `i`: its line 0 is global pin 32 * i. */
  function ChipPinRange(name: string, ngpio: nat, i: nat): PinRange
  {
    PinRange(name, 0, ChipBase(i), ChipPins(ngpio, i))
  }

  predicate InChipRange(ngpio: nat, i: nat, p: nat)
  {
    ChipBase(i) <= p < ChipBase(i) + ChipPins(ngpio, i)
  }

  /** Pins handed out to chips 0 .. k-1. */
  function PinsBelow(ngpio: nat, k: nat): int
  {
    if k == 0 then 0 else PinsBelow(ngpio, k - 1) + ChipPins(ngpio, k - 1)
  }

  /** The first k chips hold exactly the pins below 32 * k (or all pins). */
  lemma {:induction false} PinsBelowPrefix(ngpio: nat, k: nat)
    requires k <= ChipCount(ngpio)
    ensures PinsBelow(ngpio, k) == Min(ChipBase(k), ngpio)
  {
    if k > 0 {
      PinsBelowPrefix(ngpio, k - 1);
    }
  }

  /** The per-chip line counts add up to `ngpio`: no pin is lost or
      duplicated by the partition. */
  lemma PinsSumToNgpio(ngpio: nat)
    ensures PinsBelow(ngpio, ChipCount(ngpio)) == ngpio
  {
    PinsBelowPrefix(ngpio, ChipCount(ngpio));
  }

  /** Each chip's range ends exactly where the next chip's begins. */
  lemma RangesContiguous(ngpio: nat, i: nat)
    requires i + 1 < ChipCount(ngpio)
    ensures ChipBase(i) + ChipPins(ngpio, i) == ChipBase(i + 1)
  {
  }

  /** Ranges of distinct chips do not overlap. */
  lemma RangesDisjoint(ngpio: nat, i: nat, j: nat)
    requires i < j < ChipCount(ngpio)
    ensures ChipBase(i) + ChipPins(ngpio, i) <= ChipBase(j)
  {
  }

  /** A pin lies in the range of chip `i` exactly when it is one of the
      `ngpio` pins and `i` is its bank: the ranges cover [0, ngpio) and
      every pin is covered by one chip only. */
  lemma RangeOwner(ngpio: nat, i: nat, p: nat)
    ensures (i < ChipCount(ngpio) && InChipRange(ngpio, i, p)) <==> (p < ngpio && i == p / PinsPerBank)
  {
    if p < ngpio && i == p / PinsPerBank {
      assert ChipBase(i) <= p < ChipBase(i) + PinsPerBank;
      assert i < ChipCount(ngpio);
    }
    if i < ChipCount(ngpio) && InChipRange(ngpio, i, p) {
      assert i * PinsPerBank <= p < i * PinsPerBank + PinsPerBank;
    }
  }

  // ---------------------------------------------------------------------
  // Device-tree translation

  /** The two cells of a device-tree gpio specifier: args[0] is the global
      pin, args[1] the flags. */
  datatype GpioSpec = GpioSpec(pin: u32, flags: u32)

  /** Return value of of_xlate and the content of the `*flags` cell after
      the call (None when the caller passed no flags pointer). */
  datatype XlateOutcome = XlateOutcome(ret: int, flags: Option<u32>)

  /** bcm63xx_gpio_of_xlate on chip number `chip` of the chip array, which
      has `chipNgpio` lines. */
  function OfXlate(chip: nat, chipNgpio: nat, spec: GpioSpec, flags: Option<u32>): (r: XlateOutcome)
    ensures r.ret == -EINVAL || 0 <= r.ret < chipNgpio
    ensures r.ret >= 0 <==> spec.pin as int / PinsPerBank == chip && spec.pin as int % PinsPerBank < chipNgpio
    ensures r.ret >= 0 ==> ChipBase(chip) + r.ret == spec.pin as int
    ensures r.flags.Some? <==> flags.Some?
    ensures r.ret < 0 ==> r.flags == flags
    ensures r.ret >= 0 && flags.Some? ==> r.flags == Some(spec.flags)
  {
    var pin := spec.pin as int;
    if pin / PinsPerBank != chip then
      XlateOutcome(-EINVAL, flags)
    else
      var line := pin % PinsPerBank;
      if line >= chipNgpio then
        XlateOutcome(-EINVAL, flags)
      else
        XlateOutcome(line, if flags.Some? then Some(spec.flags) else None)
  }

  /** Round trip: every pin below `ngpio` is accepted by the chip that owns
      it, and the line it yields is mapped by that chip's pin range back to
      the same pin. */
  lemma XlateRoundTrip(name: string, ngpio: nat, spec: GpioSpec, flags: Option<u32>)
    requires spec.pin as int < ngpio
    ensures var c := spec.pin as int / PinsPerBank;
      && c < ChipCount(ngpio)
      && OfXlate(c, ChipPins(ngpio, c), spec, flags).ret >= 0
      && RangePin(ChipPinRange(name, ngpio, c), OfXlate(c, ChipPins(ngpio, c), spec, flags).ret) == Some(spec.pin as int)
  {
    var p := spec.pin as int;
    RangeOwner(ngpio, p / PinsPerBank, p);
  }

  /** Conversely, a chip accepts a specifier only for one of the `ngpio`
      pins in its own range, and the line it yields is the one its pin
      range maps to that pin. */
  lemma XlateOnlyOwner(name: string, ngpio: nat, chip: nat, spec: GpioSpec, flags: Option<u32>)
    requires chip < ChipCount(ngpio)
    ensures var r := OfXlate(chip, ChipPins(ngpio, chip), spec, flags);
      && (r.ret >= 0 <==> spec.pin as int < ngpio && spec.pin as int / PinsPerBank == chip)
      && (r.ret >= 0 ==> RangePin(ChipPinRange(name, ngpio, chip), r.ret) == Some(spec.pin as int))
  {
    var p := spec.pin as int;
    RangeOwner(ngpio, chip, p);
  }

  // ---------------------------------------------------------------------
  // Chip labels

  function DigitChar(d: nat): char
    requires d < 10
  {
    "0123456789"[d]
  }

  /** Decimal rendering of a non-negative number, as printf's %i. */
  function Decimal(n: nat): (s: string)
    ensures |s| >= 1
    ensures n < 10 <==> |s| == 1
    ensures forall k :: 0 <= k < |s| ==> '0' <= s[k] <= '9'
  {
    if n < 10 then [DigitChar(n)] else Decimal(n / 10) + [DigitChar(n % 10)]
  }

  /** Distinct numbers render differently. */
  lemma {:induction false} DecimalInjective(a: nat, b: nat)
    requires Decimal(a) == Decimal(b)
    ensures a == b
  {
    if a >= 10 && b >= 10 {
      var sa, sb := Decimal(a), Decimal(b);
      assert sa[|sa| - 1] == DigitChar(a % 10);
      assert sb[|sb| - 1] == DigitChar(b % 10);
      assert sa[..|sa| - 1] == Decimal(a / 10);
      assert sb[..|sb| - 1] == Decimal(b / 10);
      DecimalInjective(a / 10, b / 10);
    }
  }

  /** "bcm63xx-gpio.%i": the label of chip `i`. */
  function Label(i: nat): string
  {
    "bcm63xx-gpio." + Decimal(i)
  }

  /** Every chip gets its own label. */
  lemma LabelsDistinct(i: nat, j: nat)
    requires i != j
    ensures Label(i) != Label(j)
  {
    if Label(i) == Label(j) {
      var n := |"bcm63xx-gpio."|;
      assert Decimal(i) == Label(i)[n..];
      assert Decimal(j) == Label(j)[n..];
      DecimalInjective(i, j);
    }
  }
}
