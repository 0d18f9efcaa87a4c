# ADS1219 driver model

A Dafny model of the SparkFun ADS1219 Arduino driver. The ADS1219 is a 24-bit,
4-channel analog-to-digital converter on I2C. The model covers:

- the one-byte configuration register and its five bit fields: voltage
  reference (bit 0), conversion mode (bit 1), data rate (bits 3:2), gain (bit 4)
  and input multiplexer (bits 7:5). These are modelled as `bv8` shift-and-mask
  getters and setters, with `Pack`/`Unpack` between the byte and a `Config`
  record;
- the enumerations, the command and register codes, and the 7-bit device
  address `0b100 A1 A0`;
- the status register: the data-ready flag is bit 7 and the id field is
  bits 6:0;
- the conversion decoding of `readConversion`. Three bytes are assembled
  big-endian into a 32-bit word. The top byte is forced to `0xFF` when the
  word's bit 20 (mask `0x0010_0000`) is set. The word is then reinterpreted as
  an `int32_t`;
- the driver class, with its gain mirror and stored result, and one method per
  driver operation. The methods follow the driver's control flow and early
  returns.

The I2C bus is the class `I2CBus.Bus`: an oracle whose flags decide whether each
kind of transaction succeeds. It returns fixed bytes for register reads
(`registers`) and for the region read (`regionData`), and logs every
transaction it is asked for. The driver methods' contracts state their result
and the exact transactions they issue (`bus.log`) in terms of that oracle.

**Sign extension.** The driver's documentation
(`src/SparkFun_ADS1219.h:189`) promises a 24-bit two's-complement result. The
code tests bit 20, not the sign bit 23 of a 24-bit sample
(`src/SparkFun_ADS1219.cpp:137`). The model follows the code
(`Conversion.DecodeConversion`), and places the documented reading beside it
(`Conversion.TwosComplement24`). `Conversion.AgreesWithTwosComplementIff`
proves that the two agree exactly when bits 20 and 23 of the assembled word
are equal. The concrete lemmas show two cases where they differ:

- bytes `80 00 00` are stored as +8388608, not −8388608;
- bytes `7F FF FF` are stored as −8388609, not +8388607.

The driver is not corrected here: everything downstream uses the value as the
code computes it.

**Gain mirror.** The code assigns the gain mirror after the configuration read
succeeds and before the write (`src/SparkFun_ADS1219.cpp:91`). A failed write
therefore still changes the mirror. The model follows the code. After a failed
write the mirror can disagree with the device's gain bit until the next
successful `setGain` call. The other setters write the device's gain bit back
as they read it.

Files: `registers.dfy` (module `Registers`), `conversion.dfy` (`Conversion`),
`bus.dfy` (`I2CBus`), `driver.dfy` (`Ads1219`).

## Model

| member | source | states |
|---|---|---|
| Registers.AddressFromPins | src/SparkFun_ADS1219.h:33-36 | the address is 0b100 A1 A0: it lies in 0x40..0x4F, its top bits are 0b100 and the pins' codes lie at bits 3:2 and 1:0 |
| Registers.DefaultAddressPins | src/SparkFun_ADS1219.h:36 | the default address 0x40 is the one with both pins at DGND (code 0) |
| Registers.PinsOfAddress | src/SparkFun_ADS1219.h:33-35 | every address in 0x40..0x4F comes from exactly the pin codes it carries |
| Registers.MuxOfCode | src/SparkFun_ADS1219.h:42-62 | each 3-bit code names the multiplexer setting with that code |
| Registers.GainOfCode | src/SparkFun_ADS1219.h:64-69 | each 1-bit code names the gain with that code |
| Registers.DataRateOfCode | src/SparkFun_ADS1219.h:71-78 | each 2-bit code names the data rate with that code |
| Registers.ConversionModeOfCode | src/SparkFun_ADS1219.h:80-85 | each 1-bit code names the conversion mode with that code |
| Registers.VoltageReferenceOfCode | src/SparkFun_ADS1219.h:87-94 | each 1-bit code names the voltage reference with that code |
| Registers.CodesAreInjective | src/SparkFun_ADS1219.h:52-94 | distinct enumerators have distinct codes, for all five enumerations |
| Registers.VrefBits | src/SparkFun_ADS1219.h:109 | the reference field is bit 0: a 1-bit code, the byte under mask 0x01 |
| Registers.ModeBits | src/SparkFun_ADS1219.h:110 | the mode field is bit 1: a 1-bit code, the byte under mask 0x02 moved down |
| Registers.RateBits | src/SparkFun_ADS1219.h:111 | the data-rate field is bits 3:2: a 2-bit code, the byte under mask 0x0C moved down |
| Registers.GainBits | src/SparkFun_ADS1219.h:112 | the gain field is bit 4: a 1-bit code, the byte under mask 0x10 moved down |
| Registers.MuxBits | src/SparkFun_ADS1219.h:113 | the multiplexer field is bits 7:5: a 3-bit code, the byte under mask 0xE0 moved down |
| Registers.Unpack | src/SparkFun_ADS1219.h:105-116 | each field read from a byte has the code held at that field's bits |
| Registers.Pack | src/SparkFun_ADS1219.h:105-116 | each field's code is placed at that field's bits |
| Registers.UnpackPack | src/SparkFun_ADS1219.h:109-113 | packing the five fields and then unpacking gives the same fields back |
| Registers.PackUnpack | src/SparkFun_ADS1219.h:109-115 | unpacking a byte and then packing gives the same byte back |
| Registers.ResetConfigIsZero | src/SparkFun_ADS1219.h:156-158 | the configuration begin expects to read back, the all-zero byte, is all fields at code 0, and back |
| Registers.WithVref | src/SparkFun_ADS1219.cpp:113 | bit 0 takes the new code and the other seven bits are kept |
| Registers.WithMode | src/SparkFun_ADS1219.cpp:68 | bit 1 takes the new code and the other seven bits are kept |
| Registers.WithRate | src/SparkFun_ADS1219.cpp:102 | bits 3:2 take the new code and the other six bits are kept |
| Registers.WithGain | src/SparkFun_ADS1219.cpp:90 | bit 4 takes the new code and the other seven bits are kept |
| Registers.WithMux | src/SparkFun_ADS1219.cpp:79 | bits 7:5 take the new code and the other five bits are kept |
| Registers.WithVrefUpdatesOnlyVref | src/SparkFun_ADS1219.cpp:108-115 | as a record, the byte written has the new reference and the four other fields it read |
| Registers.WithModeUpdatesOnlyMode | src/SparkFun_ADS1219.cpp:63-70 | as a record, the byte written has the new mode and the four other fields it read |
| Registers.WithRateUpdatesOnlyRate | src/SparkFun_ADS1219.cpp:97-104 | as a record, the byte written has the new data rate and the four other fields it read |
| Registers.WithGainUpdatesOnlyGain | src/SparkFun_ADS1219.cpp:85-93 | as a record, the byte written has the new gain and the four other fields it read |
| Registers.WithMuxUpdatesOnlyMux | src/SparkFun_ADS1219.cpp:74-81 | as a record, the byte written has the new multiplexer setting and the four other fields it read |
| Registers.DataReadyBit | src/SparkFun_ADS1219.h:131 | the data-ready flag is the bit under mask 0x80 (bit 7) |
| Registers.StatusId | src/SparkFun_ADS1219.h:126-134 | the id is bits 6:0, and the status byte is the id together with the ready bit 7 |
| Registers.ReadyIgnoresId | src/SparkFun_ADS1219.h:128-132 | readiness depends on bit 7 alone, whatever the id bits hold; ready means the byte is at least 0x80 |
| Conversion.Unsigned | src/SparkFun_ADS1219.cpp:131 | a uint32_t's value is below 2^32 |
| Conversion.ToInt32 | src/SparkFun_ADS1219.cpp:129-132 | reading the union as int32_t gives the int32 congruent to the word's unsigned value modulo 2^32, which is the same 32 bits read signed; it is negative exactly when the top bit is set |
| Conversion.Assemble | src/SparkFun_ADS1219.cpp:133-135 | the word holds the three bytes, most significant first, in its low 24 bits, and zero above them |
| Conversion.AssembleValue | src/SparkFun_ADS1219.cpp:133-135 | the assembled word's value is b0·65536 + b1·256 + b2 |
| Conversion.BigEndian | src/SparkFun_ADS1219.cpp:128 | the value of an n-byte string sent most significant byte first is below 256^n |
| Conversion.BigEndianThree | src/SparkFun_ADS1219.cpp:128 | three big-endian bytes have the value b0·65536 + b1·256 + b2 |
| Conversion.AssembleIsBigEndian | src/SparkFun_ADS1219.cpp:133-135 | the three shift-ors compute the big-endian value of the three bytes |
| Conversion.SignExtendAsWritten | src/SparkFun_ADS1219.cpp:137-138 | the low 24 bits are kept; the top 8 bits become ones exactly when bit 20 is set, and zero otherwise |
| Conversion.SignExtendBytes | src/SparkFun_ADS1219.cpp:137-138 | byte by byte, the top byte becomes 0xFF when bit 20 is set and 0x00 otherwise, and the other three are kept |
| Conversion.TwosComplement24 | src/SparkFun_ADS1219.h:189 | the documented reading lies in −2^23..2^23−1, is congruent to the sample modulo 2^24, and is negative exactly when the sample is at least 2^23 |
| Conversion.DecodeConversion | src/SparkFun_ADS1219.cpp:133-139 | the value stored for three bytes is negative exactly when bit 20 of the assembled word is set (its value and residue are in DecodeConversionValue and DecodeConversionBits) |
| Conversion.DecodeConversionValue | src/SparkFun_ADS1219.cpp:133-139 | the stored value is the big-endian value of the bytes, less 2^24 exactly when bit 20 is set |
| Conversion.DecodeConversionBits | src/SparkFun_ADS1219.cpp:133-139 | the stored value is congruent to the big-endian value of the bytes modulo 2^24, is negative exactly when bit 20 is set, and lies within ±2^24 |
| Conversion.Bit23Value | src/SparkFun_ADS1219.h:189 | bit 23 of a 24-bit sample is set exactly when its value is at least 2^23 |
| Conversion.AgreesWithTwosComplementIff | src/SparkFun_ADS1219.cpp:137 | the stored value equals the documented 24-bit two's-complement reading if and only if bits 20 and 23 agree |
| Conversion.MostNegativeSampleReadsPositive | src/SparkFun_ADS1219.cpp:137 | bytes 80 00 00 are stored as 8388608, although two's complement reads −8388608 |
| Conversion.MostPositiveSampleReadsNegative | src/SparkFun_ADS1219.cpp:137 | bytes 7F FF FF are stored as −8388609, although two's complement reads 8388607 |
| Conversion.AllOnesReadsMinusOne | src/SparkFun_ADS1219.cpp:133-139 | bytes FF FF FF are stored as −1, as two's complement reads them |
| Ads1219.ReadModifyWrite | src/SparkFun_ADS1219.cpp:66-69 | a setter reads the configuration register first, and writes the new byte to 0x40 only if that read succeeded |
| Ads1219.Driver.constructor | src/SparkFun_ADS1219.h:151-154 | a new driver holds gain ×1 and result 0 |
| Ads1219.Driver.Begin | src/SparkFun_ADS1219.cpp:27-38 | succeeds exactly when the reset write succeeds, the configuration read succeeds and it returns 0x00; after a failed reset nothing is read |
| Ads1219.Driver.BeginI2C | src/SparkFun_ADS1219.h:233-243 | after a failed bus init nothing else happens; otherwise the bus is set to the address and to restarts, and the result is that of Begin |
| Ads1219.Driver.Reset | src/SparkFun_ADS1219.cpp:42-45 | writes the single command byte 0x06 and returns whether the write succeeded |
| Ads1219.Driver.StartSync | src/SparkFun_ADS1219.cpp:49-52 | writes the single command byte 0x08 and returns whether the write succeeded |
| Ads1219.Driver.PowerDown | src/SparkFun_ADS1219.cpp:56-59 | writes the single command byte 0x02 and returns whether the write succeeded |
| Ads1219.Driver.SetConversionMode | src/SparkFun_ADS1219.cpp:63-70 | reads 0x20; on failure returns false and writes nothing; otherwise writes the byte read with its mode field replaced, and returns the write's success |
| Ads1219.Driver.SetInputMultiplexer | src/SparkFun_ADS1219.cpp:74-81 | the argument defaults to AIN0/AIN1 (h:179); reads 0x20; on failure returns false and writes nothing; otherwise writes the byte read with its multiplexer field replaced, and returns the write's success |
| Ads1219.Driver.SetGain | src/SparkFun_ADS1219.cpp:85-93 | as the other setters, for the gain field; the mirror takes the new gain whenever the read succeeds, even when the write then fails, and is unchanged otherwise |
| Ads1219.Driver.SetDataRate | src/SparkFun_ADS1219.cpp:97-104 | reads 0x20; on failure returns false and writes nothing; otherwise writes the byte read with its data-rate field replaced, and returns the write's success |
| Ads1219.Driver.SetVoltageReference | src/SparkFun_ADS1219.cpp:108-115 | reads 0x20; on failure returns false and writes nothing; otherwise writes the byte read with its reference field replaced, and returns the write's success |
| Ads1219.Driver.ReadConversion | src/SparkFun_ADS1219.cpp:120-142 | issues one 3-byte region read of 0x10; succeeds exactly when the read succeeds and brings three bytes; it then stores their decoded value, and otherwise leaves the stored result unchanged |
| Ads1219.Driver.GetConversionRaw | src/SparkFun_ADS1219.cpp:162-165 | returns the stored result and changes nothing, so repeated calls agree |
| Ads1219.Driver.DataReady | src/SparkFun_ADS1219.cpp:169-174 | true exactly when the status read of 0x24 succeeds and bit 7 of the byte read is set |
| Ads1219.Driver.GetConfigurationRegister | src/SparkFun_ADS1219.cpp:179-182 | reads 0x20 once; success is the read's success, and on success the byte is the register's |
| Ads1219.Driver.SetConfigurationRegister | src/SparkFun_ADS1219.cpp:187-190 | writes the byte as given to 0x40, returns the write's success, and leaves the gain mirror and the result unchanged |

The register and command codes are the constants `Registers.CommandReset`
(0x06), `CommandStartSync` (0x08), `CommandPowerDown` (0x02),
`CommandReadData` (0x10), `RegConfigWrite` (0x40), `RegConfigRead` (0x20) and
`RegStatusRead` (0x24), and `DefaultAddress` (0x40, which is
`Registers.DefaultAddressPins`: both pins at DGND). They come from
`src/SparkFun_ADS1219.h:36`, `100-101`, `122` and `140-143`. The module methods
`Ads1219.GainMirrorScenario` and `Ads1219.ConversionScenario` call the driver
on concrete bus outcomes; their verified assertions show:

- a failed gain write that still moves the mirror;
- a raw register write that leaves the mirror behind;
- the multiplexer setter, called without an argument, writing AIN0/AIN1;
- conversions stored as −1 and as +8388608;
- a short transfer that keeps the old result.

## Left out

- `getConversionMillivolts` (`src/SparkFun_ADS1219.cpp:149-157`): floating-point arithmetic. It only reads the gain mirror and the stored result, which the model keeps.
- `delay(1)` in `begin` (`src/SparkFun_ADS1219.cpp:33`): timing is not modelled.
- The I2C transport (`sfeTkArdI2C`: `init`, `setStop`, `writeByte`, `readRegisterByte`, `writeRegisterByte`, `readRegisterRegion`) is a foreign library. It appears only as the oracle class `I2CBus.Bus`, and its contracts are assumptions about that library. In particular, a failed region read is taken to report a count of 0.
- The device's own behaviour is not modelled: what a reset, a start, a power-down or a register write does to later reads. The oracle's reads do not change when the driver writes.
- `setCommunicationBus` (`src/SparkFun_ADS1219.cpp:194-197`) only stores a pointer. The bus is a `const` field, fixed when the driver is constructed. In the source the pointer is set only by `SfeADS1219ArdI2C::begin` after a successful `init` (`src/SparkFun_ADS1219.h:235-238`); the constructor leaves it unset (`src/SparkFun_ADS1219.h:151-153`). So an operation called before a successful begin, or after a failed `init`, dereferences an unset pointer there. In the model that call is defined, and the unset-pointer case is not captured.
- `SfeADS1219ArdI2C::begin()` with the default address (`src/SparkFun_ADS1219.h:219-229`) is `BeginI2C(DefaultAddress)`. The overload that also takes a `TwoWire` port (`src/SparkFun_ADS1219.h:247-257`) differs only in the port, which is not modelled.
- The C++ bit-field layout is implementation-defined. The model takes the layout from the register comments.
