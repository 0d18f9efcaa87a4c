/** The register-oriented I2C bus the driver talks through, as an oracle: the
    environment decides, per kind of transaction, whether it succeeds, which byte
    each register read returns and which bytes a region read delivers. The bus
    records every transaction it is asked for, in order, whether it succeeded or
    not. Writes do not change what later reads return: what the device does
    with a command or a register write is not part of this model. */
module I2CBus {
  import opened Registers

  datatype Transaction =
    | WriteByte(command: Byte)
    | ReadRegisterByte(register: Byte)
    | WriteRegisterByte(register: Byte, value: Byte)
    | ReadRegisterRegion(register: Byte, length: nat)

  class Bus {
    /** Device address the bus was last initialised with. */
    var address: Byte
    /** Whether reads end the write phase with a stop (false: a restart). */
    var stopBeforeRead: bool

    /** Outcomes the environment decides. */
    var initOk: bool
    var writeOk: bool
    var readOk: bool
    var regionOk: bool
    /** The byte a read of each register returns; a read of a register not in
        the map fails. */
    var registers: map<Byte, Byte>
    /** The bytes the device sends for a region read; fewer than asked for is a
        short transfer. */
    var regionData: seq<Byte>

    /** Every transaction asked for so far. */
    var log: seq<Transaction>

    constructor (registers: map<Byte, Byte>, regionData: seq<Byte>)
      ensures this.registers == registers && this.regionData == regionData
      ensures initOk && writeOk && readOk && regionOk
      ensures address == DefaultAddress && stopBeforeRead && log == []
    {
      this.registers := registers;
      this.regionData := regionData;
      initOk, writeOk, readOk, regionOk := true, true, true, true;
      address := DefaultAddress;
      stopBeforeRead := true;
      log := [];
    }

    /** Whether a read of register reg succeeds. */
    predicate ReadSucceeds(reg: Byte)
      reads this
    {
      readOk && reg in registers
    }

    method Init(addr: Byte) returns (ok: bool)
      modifies this`address
      ensures ok == initOk
      ensures address == if ok then addr else old(address)
    {
      ok := initOk;
      if ok {
        address := addr;
      }
    }

    method SetStop(stop: bool)
      modifies this`stopBeforeRead
      ensures stopBeforeRead == stop
    {
      stopBeforeRead := stop;
    }

    method WriteCommand(command: Byte) returns (ok: bool)
      modifies this`log
      ensures ok == writeOk
      ensures log == old(log) + [WriteByte(command)]
    {
      ok := writeOk;
      log := log + [WriteByte(command)];
    }

    method ReadRegister(reg: Byte) returns (ok: bool, value: Byte)
      modifies this`log
      ensures ok == ReadSucceeds(reg)
      ensures ok ==> value == registers[reg]
      ensures log == old(log) + [ReadRegisterByte(reg)]
    {
      ok := ReadSucceeds(reg);
      value := if ok then registers[reg] else 0;
      log := log + [ReadRegisterByte(reg)];
    }

    method WriteRegister(reg: Byte, value: Byte) returns (ok: bool)
      modifies this`log
      ensures ok == writeOk
      ensures log == old(log) + [WriteRegisterByte(reg, value)]
    {
      ok := writeOk;
      log := log + [WriteRegisterByte(reg, value)];
    }

    /** Reads up to len bytes into buf and reports how many arrived. */
    method ReadRegion(reg: Byte, buf: array<Byte>, len: nat) returns (ok: bool, count: nat)
      requires len <= buf.Length
      modifies this`log, buf
      ensures ok == regionOk
      ensures count == if ok then Min(len, |regionData|) else 0
      ensures buf[..count] == regionData[..count] && buf[count..] == old(buf[count..])
      ensures log == old(log) + [ReadRegisterRegion(reg, len)]
    {
      ok := regionOk;
      count := if ok then Min(len, |regionData|) else 0;
      forall i | 0 <= i < count {
        buf[i] := regionData[i];
      }
      log := log + [ReadRegisterRegion(reg, len)];
    }
  }

  function Min(a: nat, b: nat): (m: nat)
    ensures m <= a && m <= b && (m == a || m == b)
  {
    if a <= b then a else b
  }
}
