/** The ADS1219 driver: a local mirror of the gain setting and the most recent
    conversion result, and one method per driver operation, each issuing its bus
    transactions in the order the driver does and failing as soon as one of
    them fails. */
module Ads1219 {
  import opened Registers
  import opened Conversion
  import opened I2CBus

  /** The transactions of a read-modify-write of the configuration register:
      the read, then, only when the read succeeded, the write of the new byte. */
  function ReadModifyWrite(readable: bool, written: Byte): (t: seq<Transaction>)
    ensures |t| == (if readable then 2 else 1) && t[0] == ReadRegisterByte(RegConfigRead)
    ensures readable ==> t[1] == WriteRegisterByte(RegConfigWrite, written)
  {
    [ReadRegisterByte(RegConfigRead)]
      + (if readable then [WriteRegisterByte(RegConfigWrite, written)] else [])
  }

  class Driver {
    /** The bus, fixed once the driver is bound to it. */
    const bus: Bus
    /** Local copy of the gain, needed to convert results to millivolts. */
    var gain: Gain
    /** The last conversion result, sign-extended into 32 bits. */
    var result: Int32

    /** A new driver holds gain x1 and result 0. */
    constructor (bus: Bus)
      ensures this.bus == bus && gain == Gain1 && result == 0
    {
      this.bus := bus;
      gain := Gain1;
      result := 0;
    }

    /** Resets the device and checks that the configuration register reads back
        as zero. The settling delay between the two is not modelled. */
    method Begin() returns (ok: bool)
      modifies bus`log
      ensures ok == (bus.writeOk && bus.ReadSucceeds(RegConfigRead)
                     && bus.registers[RegConfigRead] == 0)
      ensures bus.log == old(bus.log) + [WriteByte(CommandReset)]
                         + (if bus.writeOk then [ReadRegisterByte(RegConfigRead)] else [])
    {
      var reset := Reset();
      if !reset {
        return false;
      }
      var readOk, config := bus.ReadRegister(RegConfigRead);
      ok := readOk && config == 0;
    }

    /** Initialises the bus at an address, selects restarts between the write
        and read phases, then runs Begin. */
    method BeginI2C(address: Byte) returns (ok: bool)
      modifies bus`address, bus`stopBeforeRead, bus`log
      ensures ok == (bus.initOk && bus.writeOk && bus.ReadSucceeds(RegConfigRead)
                     && bus.registers[RegConfigRead] == 0)
      ensures bus.address == if bus.initOk then address else old(bus.address)
      ensures bus.stopBeforeRead == if bus.initOk then false else old(bus.stopBeforeRead)
      ensures bus.log == old(bus.log)
                         + (if !bus.initOk then []
                            else [WriteByte(CommandReset)]
                                 + (if bus.writeOk then [ReadRegisterByte(RegConfigRead)] else []))
    {
      var initOk := bus.Init(address);
      if !initOk {
        return false;
      }
      bus.SetStop(false);
      ok := Begin();
    }

    method Reset() returns (ok: bool)
      modifies bus`log
      ensures ok == bus.writeOk
      ensures bus.log == old(bus.log) + [WriteByte(CommandReset)]
    {
      ok := bus.WriteCommand(CommandReset);
    }

    method StartSync() returns (ok: bool)
      modifies bus`log
      ensures ok == bus.writeOk
      ensures bus.log == old(bus.log) + [WriteByte(CommandStartSync)]
    {
      ok := bus.WriteCommand(CommandStartSync);
    }

    method PowerDown() returns (ok: bool)
      modifies bus`log
      ensures ok == bus.writeOk
      ensures bus.log == old(bus.log) + [WriteByte(CommandPowerDown)]
    {
      ok := bus.WriteCommand(CommandPowerDown);
    }

    method SetConversionMode(mode: ConversionMode) returns (ok: bool)
      modifies bus`log
      ensures ok == (bus.ReadSucceeds(RegConfigRead) && bus.writeOk)
      ensures bus.log == old(bus.log) + ReadModifyWrite(bus.ReadSucceeds(RegConfigRead),
        if bus.ReadSucceeds(RegConfigRead) then WithMode(bus.registers[RegConfigRead], mode) else 0)
    {
      var readOk, config := bus.ReadRegister(RegConfigRead);
      if !readOk {
        return false;
      }
      config := WithMode(config, mode);
      ok := bus.WriteRegister(RegConfigWrite, config);
    }

    /** Called without an argument, selects AINP = AIN0, AINN = AIN1. */
    method SetInputMultiplexer(mux: Mux := MuxDiffP0N1) returns (ok: bool)
      modifies bus`log
      ensures ok == (bus.ReadSucceeds(RegConfigRead) && bus.writeOk)
      ensures bus.log == old(bus.log) + ReadModifyWrite(bus.ReadSucceeds(RegConfigRead),
        if bus.ReadSucceeds(RegConfigRead) then WithMux(bus.registers[RegConfigRead], mux) else 0)
    {
      var readOk, config := bus.ReadRegister(RegConfigRead);
      if !readOk {
        return false;
      }
      config := WithMux(config, mux);
      ok := bus.WriteRegister(RegConfigWrite, config);
    }

    /** The mirror takes the new gain as soon as the read succeeds, before the
        write, so a failed write leaves the mirror changed. */
    method SetGain(g: Gain) returns (ok: bool)
      modifies this`gain, bus`log
      ensures ok == (bus.ReadSucceeds(RegConfigRead) && bus.writeOk)
      ensures gain == if bus.ReadSucceeds(RegConfigRead) then g else old(gain)
      ensures bus.log == old(bus.log) + ReadModifyWrite(bus.ReadSucceeds(RegConfigRead),
        if bus.ReadSucceeds(RegConfigRead) then WithGain(bus.registers[RegConfigRead], g) else 0)
    {
      var readOk, config := bus.ReadRegister(RegConfigRead);
      if !readOk {
        return false;
      }
      config := WithGain(config, g);
      gain := g;
      ok := bus.WriteRegister(RegConfigWrite, config);
    }

    method SetDataRate(rate: DataRate) returns (ok: bool)
      modifies bus`log
      ensures ok == (bus.ReadSucceeds(RegConfigRead) && bus.writeOk)
      ensures bus.log == old(bus.log) + ReadModifyWrite(bus.ReadSucceeds(RegConfigRead),
        if bus.ReadSucceeds(RegConfigRead) then WithRate(bus.registers[RegConfigRead], rate) else 0)
    {
      var readOk, config := bus.ReadRegister(RegConfigRead);
      if !readOk {
        return false;
      }
      config := WithRate(config, rate);
      ok := bus.WriteRegister(RegConfigWrite, config);
    }

    method SetVoltageReference(vref: VoltageReference) returns (ok: bool)
      modifies bus`log
      ensures ok == (bus.ReadSucceeds(RegConfigRead) && bus.writeOk)
      ensures bus.log == old(bus.log) + ReadModifyWrite(bus.ReadSucceeds(RegConfigRead),
        if bus.ReadSucceeds(RegConfigRead) then WithVref(bus.registers[RegConfigRead], vref) else 0)
    {
      var readOk, config := bus.ReadRegister(RegConfigRead);
      if !readOk {
        return false;
      }
      config := WithVref(config, vref);
      ok := bus.WriteRegister(RegConfigWrite, config);
    }

    /** Reads three bytes of conversion data; a failed or short read leaves the
        stored result as it was. */
    method ReadConversion() returns (ok: bool)
      modifies this`result, bus`log
      ensures ok == (bus.regionOk && |bus.regionData| >= 3)
      ensures result == if ok then DecodeConversion(bus.regionData[0], bus.regionData[1], bus.regionData[2])
                        else old(result)
      ensures bus.log == old(bus.log) + [ReadRegisterRegion(CommandReadData, 3)]
    {
      var rawBytes := new Byte[3];
      var readOk, readBytes := bus.ReadRegion(CommandReadData, rawBytes, 3);
      ok := readOk && readBytes == 3;
      if ok {
        assert rawBytes[..3] == bus.regionData[..3];
        var u := Assemble(rawBytes[0], rawBytes[1], rawBytes[2]);
        var w := SignExtendAsWritten(u);
        result := ToInt32(w);
      }
    }

    /** The stored result, unchanged by the call. */
    method GetConversionRaw() returns (raw: Int32)
      ensures raw == result
    {
      raw := result;
    }

    /** True exactly when the status read succeeds and its ready bit is set. */
    method DataReady() returns (ready: bool)
      modifies bus`log
      ensures ready == (bus.ReadSucceeds(RegStatusRead) && DataReadyBit(bus.registers[RegStatusRead]))
      ensures bus.log == old(bus.log) + [ReadRegisterByte(RegStatusRead)]
    {
      var readOk, status := bus.ReadRegister(RegStatusRead);
      ready := readOk && DataReadyBit(status);
    }

    method GetConfigurationRegister() returns (ok: bool, config: Byte)
      modifies bus`log
      ensures ok == bus.ReadSucceeds(RegConfigRead)
      ensures ok ==> config == bus.registers[RegConfigRead]
      ensures bus.log == old(bus.log) + [ReadRegisterByte(RegConfigRead)]
    {
      ok, config := bus.ReadRegister(RegConfigRead);
    }

    /** Writes the whole byte as given; the gain mirror is not updated. */
    method SetConfigurationRegister(config: Byte) returns (ok: bool)
      modifies bus`log
      ensures ok == bus.writeOk
      ensures gain == old(gain) && result == old(result)
      ensures bus.log == old(bus.log) + [WriteRegisterByte(RegConfigWrite, config)]
    {
      ok := bus.WriteRegister(RegConfigWrite, config);
    }
  }

  /** A client's view of the gain mirror: a setter whose write fails still
      moves the mirror, and a raw register write leaves it behind. The
      multiplexer setter called without an argument selects AIN0/AIN1. */
  method GainMirrorScenario()
  {
    var bus := new Bus(map[RegConfigRead := 0x00], []);
    var driver := new Driver(bus);
    bus.writeOk := false;
    var ok := driver.SetGain(Gain4);
    assert !ok && driver.gain == Gain4;
    bus.writeOk := true;
    ok := driver.SetConfigurationRegister(Pack(ResetConfig));
    assert ok && driver.gain == Gain4;
    assert bus.log[|bus.log| - 1] == WriteRegisterByte(RegConfigWrite, Pack(ResetConfig));
    assert Unpack(Pack(ResetConfig)).gain == Gain1 by { UnpackPack(ResetConfig); }
    ghost var before, read := bus.log, bus.registers[RegConfigRead];
    ok := driver.SetInputMultiplexer();
    assert ok && bus.log == before + ReadModifyWrite(true, WithMux(read, MuxDiffP0N1));
    assert Unpack(WithMux(read, MuxDiffP0N1)).mux == MuxDiffP0N1;
  }

  /** A client's view of conversion reads: the stored value follows the bit-20
      test, a short transfer changes nothing, and repeated raw reads agree. */
  method ConversionScenario()
  {
    var bus := new Bus(map[], [0xFF, 0xFF, 0xFF]);
    var driver := new Driver(bus);
    var ok := driver.ReadConversion();
    AllOnesReadsMinusOne();
    assert ok && driver.result == -1;
    bus.regionData := [0x80, 0x00, 0x00];
    ok := driver.ReadConversion();
    MostNegativeSampleReadsPositive();
    assert ok && driver.result == 8388608;
    bus.regionData := [0x7F, 0xFF];
    ok := driver.ReadConversion();
    var first := driver.GetConversionRaw();
    var second := driver.GetConversionRaw();
    assert !ok && first == second == 8388608;
  }
}
