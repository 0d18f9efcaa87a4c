/** The ADS1219's register map as the driver sees it: the device address,
    the protocol constants, the five configuration fields and their enumerations,
    and the one-byte configuration and status registers with explicit
    shift-and-mask codecs keyed to the documented bit positions. */
module Registers {

  type Byte = bv8

  // ---------------------------------------------------------------------------
  // Device address
  // ---------------------------------------------------------------------------

  /** 7-bit address with both address pins tied to DGND. */
  const DefaultAddress: Byte := 0x40

  /** The 7-bit address [1, 0, 0, A1H, A1L, A0H, A0L]: the fixed prefix 0b100
      followed by the two-bit codes of the pins A1 and A0. */
  function AddressFromPins(a1: Byte, a0: Byte): (addr: Byte)
    requires a1 < 4 && a0 < 4
    ensures 0x40 <= addr <= 0x4F
    ensures addr >> 4 == 0x4
    ensures (addr >> 2) & 3 == a1 && addr & 3 == a0
  {
    0x40 | (a1 << 2) | a0
  }

  /** Both pins at code 0 (DGND) give the default address. */
  lemma DefaultAddressPins()
    ensures AddressFromPins(0, 0) == DefaultAddress
  {
  }

  /** The pin codes an address in 0x40..0x4F is made of. */
  function PinsOfAddress(addr: Byte): (pins: (Byte, Byte))
    requires 0x40 <= addr <= 0x4F
    ensures pins.0 < 4 && pins.1 < 4
    ensures AddressFromPins(pins.0, pins.1) == addr
  {
    ((addr >> 2) & 3, addr & 3)
  }

  // ---------------------------------------------------------------------------
  // Command bytes and register addresses
  // ---------------------------------------------------------------------------

  const CommandReset: Byte := 0x06
  const CommandStartSync: Byte := 0x08
  const CommandPowerDown: Byte := 0x02
  const CommandReadData: Byte := 0x10
  const RegConfigWrite: Byte := 0x40
  const RegConfigRead: Byte := 0x20
  const RegStatusRead: Byte := 0x24

  // ---------------------------------------------------------------------------
  // Configuration fields, with their codes
  // ---------------------------------------------------------------------------

  /** Input multiplexer (configuration bits 7:5). */
  datatype Mux =
    | MuxDiffP0N1 | MuxDiffP2N3 | MuxDiffP1N2
    | MuxSingle0 | MuxSingle1 | MuxSingle2 | MuxSingle3
    | MuxShorted
  {
    function Code(): (c: Byte)
      ensures c < 8
    {
      match this
      case MuxDiffP0N1 => 0
      case MuxDiffP2N3 => 1
      case MuxDiffP1N2 => 2
      case MuxSingle0 => 3
      case MuxSingle1 => 4
      case MuxSingle2 => 5
      case MuxSingle3 => 6
      case MuxShorted => 7
    }
  }

  function MuxOfCode(c: Byte): (m: Mux)
    requires c < 8
    ensures m.Code() == c
  {
    if c == 0 then MuxDiffP0N1
    else if c == 1 then MuxDiffP2N3
    else if c == 2 then MuxDiffP1N2
    else if c == 3 then MuxSingle0
    else if c == 4 then MuxSingle1
    else if c == 5 then MuxSingle2
    else if c == 6 then MuxSingle3
    else MuxShorted
  }

  /** Programmable gain (configuration bit 4). */
  datatype Gain = Gain1 | Gain4
  {
    function Code(): (c: Byte)
      ensures c < 2
    {
      match this
      case Gain1 => 0
      case Gain4 => 1
    }
  }

  function GainOfCode(c: Byte): (g: Gain)
    requires c < 2
    ensures g.Code() == c
  {
    if c == 0 then Gain1 else Gain4
  }

  /** Data rate (configuration bits 3:2). */
  datatype DataRate = Rate20Sps | Rate90Sps | Rate330Sps | Rate1000Sps
  {
    function Code(): (c: Byte)
      ensures c < 4
    {
      match this
      case Rate20Sps => 0
      case Rate90Sps => 1
      case Rate330Sps => 2
      case Rate1000Sps => 3
    }
  }

  function DataRateOfCode(c: Byte): (r: DataRate)
    requires c < 4
    ensures r.Code() == c
  {
    if c == 0 then Rate20Sps
    else if c == 1 then Rate90Sps
    else if c == 2 then Rate330Sps
    else Rate1000Sps
  }

  /** Conversion mode (configuration bit 1). */
  datatype ConversionMode = SingleShot | Continuous
  {
    function Code(): (c: Byte)
      ensures c < 2
    {
      match this
      case SingleShot => 0
      case Continuous => 1
    }
  }

  function ConversionModeOfCode(c: Byte): (m: ConversionMode)
    requires c < 2
    ensures m.Code() == c
  {
    if c == 0 then SingleShot else Continuous
  }

  /** Voltage reference (configuration bit 0). */
  datatype VoltageReference = VrefInternal | VrefExternal
  {
    function Code(): (c: Byte)
      ensures c < 2
    {
      match this
      case VrefInternal => 0
      case VrefExternal => 1
    }
  }

  function VoltageReferenceOfCode(c: Byte): (v: VoltageReference)
    requires c < 2
    ensures v.Code() == c
  {
    if c == 0 then VrefInternal else VrefExternal
  }

  /** A code determines its enumerator: Code is one-to-one on every field. */
  lemma {:induction false} CodesAreInjective()
    ensures forall m: Mux, n: Mux :: m.Code() == n.Code() ==> m == n
    ensures forall g: Gain, h: Gain :: g.Code() == h.Code() ==> g == h
    ensures forall r: DataRate, s: DataRate :: r.Code() == s.Code() ==> r == s
    ensures forall m: ConversionMode, n: ConversionMode :: m.Code() == n.Code() ==> m == n
    ensures forall v: VoltageReference, w: VoltageReference :: v.Code() == w.Code() ==> v == w
  {
    forall m: Mux, n: Mux | m.Code() == n.Code() ensures m == n {
      assert MuxOfCode(m.Code()) == m;
    }
    forall r: DataRate, s: DataRate | r.Code() == s.Code() ensures r == s {
      assert DataRateOfCode(r.Code()) == r;
    }
  }

  // ---------------------------------------------------------------------------
  // Configuration register: bit 0 vref, bit 1 cm, bits 3:2 dr, bit 4 gain,
  // bits 7:5 mux
  // ---------------------------------------------------------------------------

  const VrefMask: Byte := 0x01
  const ModeMask: Byte := 0x02
  const RateMask: Byte := 0x0C
  const GainMask: Byte := 0x10
  const MuxMask: Byte := 0xE0

  /** Each field getter yields a code of its field's width, and that code is
      the part of the byte under the field's mask, moved down to bit 0. */
  function VrefBits(b: Byte): (c: Byte)
    ensures c < 2 && c == b & VrefMask
  { b & 1 }
  function ModeBits(b: Byte): (c: Byte)
    ensures c < 2 && c == (b & ModeMask) >> 1
  { (b >> 1) & 1 }
  function RateBits(b: Byte): (c: Byte)
    ensures c < 4 && c == (b & RateMask) >> 2
  { (b >> 2) & 3 }
  function GainBits(b: Byte): (c: Byte)
    ensures c < 2 && c == (b & GainMask) >> 4
  { (b >> 4) & 1 }
  function MuxBits(b: Byte): (c: Byte)
    ensures c < 8 && c == (b & MuxMask) >> 5
  { (b >> 5) & 7 }

  /** The five fields of the configuration register. */
  datatype Config = Config(
    vref: VoltageReference,
    mode: ConversionMode,
    rate: DataRate,
    gain: Gain,
    mux: Mux)

  /** The all-zero register the device holds after a reset. */
  const ResetConfig: Config := Config(VrefInternal, SingleShot, Rate20Sps, Gain1, MuxDiffP0N1)

  function Unpack(b: Byte): (cfg: Config)
    ensures cfg.vref.Code() == VrefBits(b)
    ensures cfg.mode.Code() == ModeBits(b)
    ensures cfg.rate.Code() == RateBits(b)
    ensures cfg.gain.Code() == GainBits(b)
    ensures cfg.mux.Code() == MuxBits(b)
  {
    Config(
      VoltageReferenceOfCode(VrefBits(b)),
      ConversionModeOfCode(ModeBits(b)),
      DataRateOfCode(RateBits(b)),
      GainOfCode(GainBits(b)),
      MuxOfCode(MuxBits(b)))
  }

  function Pack(cfg: Config): (b: Byte)
    ensures VrefBits(b) == cfg.vref.Code()
    ensures ModeBits(b) == cfg.mode.Code()
    ensures RateBits(b) == cfg.rate.Code()
    ensures GainBits(b) == cfg.gain.Code()
    ensures MuxBits(b) == cfg.mux.Code()
  {
    (cfg.mux.Code() << 5) | (cfg.gain.Code() << 4) | (cfg.rate.Code() << 2)
      | (cfg.mode.Code() << 1) | cfg.vref.Code()
  }

  /** Packing the five fields and unpacking gives the same fields back. */
  lemma {:induction false} UnpackPack(cfg: Config)
    ensures Unpack(Pack(cfg)) == cfg
  {
    CodesAreInjective();
  }

  /** Unpacking a byte and packing its fields gives the same byte back. */
  lemma {:induction false} PackUnpack(b: Byte)
    ensures Pack(Unpack(b)) == b
  {
    var cfg := Unpack(b);
    assert b == (MuxBits(b) << 5) | (GainBits(b) << 4) | (RateBits(b) << 2)
      | (ModeBits(b) << 1) | VrefBits(b);
  }

  /** The configuration that begin expects to read back after a reset is the
      all-zero byte, and the zero byte decodes to it. */
  lemma ResetConfigIsZero()
    ensures Pack(ResetConfig) == 0 && Unpack(0) == ResetConfig
  {
  }

  // ---------------------------------------------------------------------------
  // Single-field updates: each overwrites exactly one field of the byte
  // ---------------------------------------------------------------------------

  function WithVref(b: Byte, v: VoltageReference): (r: Byte)
    ensures VrefBits(r) == v.Code()
    ensures r & !VrefMask == b & !VrefMask
  {
    (b & !VrefMask) | v.Code()
  }

  function WithMode(b: Byte, m: ConversionMode): (r: Byte)
    ensures ModeBits(r) == m.Code()
    ensures r & !ModeMask == b & !ModeMask
  {
    (b & !ModeMask) | (m.Code() << 1)
  }

  function WithRate(b: Byte, d: DataRate): (r: Byte)
    ensures RateBits(r) == d.Code()
    ensures r & !RateMask == b & !RateMask
  {
    (b & !RateMask) | (d.Code() << 2)
  }

  function WithGain(b: Byte, g: Gain): (r: Byte)
    ensures GainBits(r) == g.Code()
    ensures r & !GainMask == b & !GainMask
  {
    (b & !GainMask) | (g.Code() << 4)
  }

  function WithMux(b: Byte, m: Mux): (r: Byte)
    ensures MuxBits(r) == m.Code()
    ensures r & !MuxMask == b & !MuxMask
  {
    (b & !MuxMask) | (m.Code() << 5)
  }

  /** Each single-field update changes that field of the decoded register and
      leaves the other four as they were. */
  lemma {:induction false} WithVrefUpdatesOnlyVref(b: Byte, v: VoltageReference)
    ensures Unpack(WithVref(b, v)) == Unpack(b).(vref := v)
  {
    var r := WithVref(b, v);
    assert ModeBits(r) == ModeBits(b) && RateBits(r) == RateBits(b);
    assert GainBits(r) == GainBits(b) && MuxBits(r) == MuxBits(b);
    CodesAreInjective();
  }

  lemma {:induction false} WithModeUpdatesOnlyMode(b: Byte, m: ConversionMode)
    ensures Unpack(WithMode(b, m)) == Unpack(b).(mode := m)
  {
    var r := WithMode(b, m);
    assert VrefBits(r) == VrefBits(b) && RateBits(r) == RateBits(b);
    assert GainBits(r) == GainBits(b) && MuxBits(r) == MuxBits(b);
    CodesAreInjective();
  }

  lemma {:induction false} WithRateUpdatesOnlyRate(b: Byte, d: DataRate)
    ensures Unpack(WithRate(b, d)) == Unpack(b).(rate := d)
  {
    var r := WithRate(b, d);
    assert VrefBits(r) == VrefBits(b) && ModeBits(r) == ModeBits(b);
    assert GainBits(r) == GainBits(b) && MuxBits(r) == MuxBits(b);
    CodesAreInjective();
  }

  lemma {:induction false} WithGainUpdatesOnlyGain(b: Byte, g: Gain)
    ensures Unpack(WithGain(b, g)) == Unpack(b).(gain := g)
  {
    var r := WithGain(b, g);
    assert VrefBits(r) == VrefBits(b) && ModeBits(r) == ModeBits(b);
    assert RateBits(r) == RateBits(b) && MuxBits(r) == MuxBits(b);
    CodesAreInjective();
  }

  lemma {:induction false} WithMuxUpdatesOnlyMux(b: Byte, m: Mux)
    ensures Unpack(WithMux(b, m)) == Unpack(b).(mux := m)
  {
    var r := WithMux(b, m);
    assert VrefBits(r) == VrefBits(b) && ModeBits(r) == ModeBits(b);
    assert RateBits(r) == RateBits(b) && GainBits(r) == GainBits(b);
    CodesAreInjective();
  }

  // ---------------------------------------------------------------------------
  // Status register: bits 6:0 id, bit 7 data ready
  // ---------------------------------------------------------------------------

  const ReadyMask: Byte := 0x80

  /** The data-ready flag: bit 7, the bit under ReadyMask. */
  predicate DataReadyBit(s: Byte)
    ensures DataReadyBit(s) <==> s & ReadyMask == ReadyMask
  {
    (s >> 7) & 1 == 1
  }

  function StatusId(s: Byte): (id: Byte)
    ensures id < 0x80
    ensures s == id | (if DataReadyBit(s) then ReadyMask else 0)
  {
    s & 0x7F
  }

  /** The ready flag depends on bit 7 alone: the id bits play no part. */
  lemma ReadyIgnoresId(s: Byte, id: Byte)
    requires id < 0x80
    ensures DataReadyBit((s & ReadyMask) | id) == DataReadyBit(s)
    ensures DataReadyBit(s) <==> s >= 0x80
  {
  }
}
