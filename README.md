# CPU SoC BIOS build, modelled in Dafny

This project models the CPU system-on-chip of lambdasoc (`lambdasoc/soc/cpu.py`).
It covers three parts:

- `CPUSoC.build` plans the BIOS build. Depending on its flags it then runs the plan and loads the firmware image `bios/bios.bin` into the ROM peripheral. The image is loaded as words of `data_width // 8` bytes in the CPU's byte order.
- `BIOSBuilder`'s two file templates: the Kconfig-style `<name>.config` and the C header `litex_config.h`.
- `BIOSBuilder.prepare`, which accepts only a `CPUSoC`.

Modules, one per file:

- `Wrappers` (`wrappers.dfy`): `Option` and `Result`.
- `Numerals` (`numerals.dfy`): Python's `hex()` and `str()` on integers, and the parsers that read them back.
- `FirmwareWords` (`firmware_words.dfy`): the firmware decoder.
  - `DecodeWords` is the specification: consecutive chunks of `size` bytes, a short final chunk kept as it is, and no words at all when `size` is 0. With `size` 0, `read(0)` returns the `b''` sentinel at once.
  - `ReadFirmware` is the loop of lines 44-45 proved against it.
  - The byte orders are proved equivalent to a positional sum and to each other. Decoding is proved inverse to encoding.
- `BiosConfig` (`bios_config.dfy`): the templates.
  - A rendered file is a sequence of lines: settings `KEY=VALUE`, defines `#define KEY VALUE`, and the include guard.
  - `Bindings(lines, key)` is every value bound to a key, in file order. It is what a reader of the file sees as long as every key is one word of identifier characters.
  - Each property says that a key is bound exactly once and that its value parses back to the SoC's own number.
- `CpuSoc` (`cpu_soc.dfy`):
  - the class `CPUSoC`, whose only mutable field is the ROM's initial contents;
  - `Prepare` with its type guard;
  - `Build`, proved against the functions `Stage` (what it returns) and `RomAfter` (what the ROM holds afterwards).

The build command runs outside the model. It is the parameter `execute`, a function from a plan to its products (a map from path to bytes) or to an error. Missing `bios/bios.bin` in the products is the `ArtifactNotFound` error, which `products.extract` raises.

## Model

| member | source | states |
|---|---|---|
| Numerals.Hex | lambdasoc/soc/cpu.py:55 | `hex()` gives "0x" followed by lower-case hex digits, with no leading zero except in "0x0" |
| Numerals.Decimal | lambdasoc/soc/cpu.py:68 | `str()` of an integer is decimal digits, with a leading "-" exactly for negative numbers and no leading zero except in "0" |
| Numerals.HexRoundTrip | lambdasoc/soc/cpu.py:63-66 | parsing the output of `hex(n)` gives n back, for every n |
| Numerals.DecimalRoundTrip | lambdasoc/soc/cpu.py:68 | parsing the output of `str(i)` gives i back, for every integer, negative ones included |
| Numerals.HexExamples | lambdasoc/soc/cpu.py:55 | `hex(0) == "0x0"`, `hex(0x4000) == "0x4000"`, `hex(255) == "0xff"` |
| FirmwareWords.LittleEndianValue | lambdasoc/soc/cpu.py:45 | `int.from_bytes(w, "little")` of len(w) bytes is below 256^len(w); its positional meaning is `LittleEndianIsPositionalSum` |
| FirmwareWords.BigEndianValue | lambdasoc/soc/cpu.py:45 | `int.from_bytes(w, "big")` of len(w) bytes is below 256^len(w); its relation to the little-endian value is `BigEndianIsReversedLittle` |
| FirmwareWords.FromBytes | lambdasoc/soc/cpu.py:45 | `int.from_bytes` of n bytes is below 256^n in either byte order |
| FirmwareWords.DecodeWords | lambdasoc/soc/cpu.py:44-45 | successive reads of `size` bytes, the last one possibly short, each decoded on its own length. There are no words exactly when size is 0 or the image is empty, and never more words than bytes |
| FirmwareWords.DecodeFirmware | lambdasoc/soc/cpu.py:44-45 | the words of line 45 with size data_width // 8. A width below 8 gives no words; otherwise there are no words exactly for an empty image |
| FirmwareWords.ReadFirmware | lambdasoc/soc/cpu.py:44-45 | the read loop returns exactly the chunk-by-chunk decoding of the image |
| FirmwareWords.LittleEndianIsPositionalSum | lambdasoc/soc/cpu.py:45 | a little-endian value is the sum of byte i times 256^i |
| FirmwareWords.BigEndianIsReversedLittle | lambdasoc/soc/cpu.py:45 | a big-endian value equals the little-endian value of the reversed bytes |
| FirmwareWords.WordRoundTrip | lambdasoc/soc/cpu.py:45 | a value below 256^n written as n bytes decodes back to itself, in either order |
| FirmwareWords.ChunkRoundTrip | lambdasoc/soc/cpu.py:45 | decoding a chunk and writing the value back as that many bytes gives the chunk |
| FirmwareWords.WordCount | lambdasoc/soc/cpu.py:44 | there are ceil(len / size) words; there are none when size is 0 |
| FirmwareWords.FullChunk | lambdasoc/soc/cpu.py:44-45 | every word but the last is the value of bytes [i*size, (i+1)*size) |
| FirmwareWords.ShortFinalWord | lambdasoc/soc/cpu.py:44-45 | when size does not divide the length, the last word is the value of the leftover bytes alone, unpadded |
| FirmwareWords.WordsFitDataWidth | lambdasoc/soc/cpu.py:44-45 | every decoded word is below 2^data_width |
| FirmwareWords.DecodeEncode | lambdasoc/soc/cpu.py:44-45 | words below 256^size written out and read back give the same words |
| FirmwareWords.EncodeDecode | lambdasoc/soc/cpu.py:44-45 | an image of whole words, decoded and written back, is the same image |
| FirmwareWords.LittleEndianExample | lambdasoc/soc/cpu.py:45 | bytes 01 00 00 00 02 00 00 00 at data width 32, little-endian, are the words [1, 2] |
| BiosConfig.Upper | lambdasoc/soc/cpu.py:54 | `str.upper()` keeps the length and maps each ASCII lower-case letter to its capital, leaving every other character as it is |
| BiosConfig.ConfigLines | lambdasoc/soc/cpu.py:52-83 | the config is the banner followed by `KEY=VALUE` settings only: 21 lines with an SDRAM, 19 without |
| BiosConfig.CpuSection | lambdasoc/soc/cpu.py:54-62 | five settings; the muldiv conditional contributes exactly one line |
| BiosConfig.MemorySection | lambdasoc/soc/cpu.py:63-66 | four settings |
| BiosConfig.UartSection | lambdasoc/soc/cpu.py:67-70 | four settings |
| BiosConfig.TimerSection | lambdasoc/soc/cpu.py:71-74 | four settings |
| BiosConfig.SdramConfig | lambdasoc/soc/cpu.py:76-82 | three settings with an SDRAM, one without |
| BiosConfig.HeaderLines | lambdasoc/soc/cpu.py:84-100 | the header opens with `#ifndef`/`#define` of its guard, ends with `#endif`, and only defines macros in between: 10 lines with an SDRAM, 5 without |
| BiosConfig.SdramHeader | lambdasoc/soc/cpu.py:91-97 | five defines with an SDRAM, none without |
| BiosConfig.SettingIsBound | lambdasoc/soc/cpu.py:52-83 | every `KEY=VALUE` line in a file is seen by a reader of KEY |
| BiosConfig.CpuKeysDistinct | lambdasoc/soc/cpu.py:54-61 | the arch key differs from the other four keys of the CPU section, and the muldiv key differs from the two fixed CPU keys |
| BiosConfig.ArchSelected | lambdasoc/soc/cpu.py:54-57 | for every CPU, CONFIG_CPU_<NAME>=y and CONFIG_ARCH_<ARCH>=y are in the config, and CONFIG_ARCH_<ARCH> is bound exactly once |
| BiosConfig.CpuSelected | lambdasoc/soc/cpu.py:54 | CONFIG_CPU_<NAME> is bound exactly once, to "y" |
| BiosConfig.CpuResetAddress | lambdasoc/soc/cpu.py:55 | CONFIG_CPU_RESET_ADDR reads back as the CPU's reset address |
| BiosConfig.CpuByteOrder | lambdasoc/soc/cpu.py:56 | the quoted CONFIG_CPU_BYTEORDER reads back as the CPU's byte order |
| BiosConfig.MulDivSwitch | lambdasoc/soc/cpu.py:58-62 | the muldiv key is bound exactly once; the "=y" line is present iff muldiv is "soft", and the "=n" line iff it is not |
| BiosConfig.MemoryMapReadsBack | lambdasoc/soc/cpu.py:63-66 | ROM and RAM start and size read back as the SoC's own |
| BiosConfig.UartReadsBack | lambdasoc/soc/cpu.py:67-70 | the UART address and IRQ number read back; both ring-buffer sizes read as 7 |
| BiosConfig.TimerReadsBack | lambdasoc/soc/cpu.py:71-74 | timer address, IRQ number and counter width, and the clock frequency, read back |
| BiosConfig.SdramSwitch | lambdasoc/soc/cpu.py:76-82 | CONFIG_WITH_SDRAM is bound once, to "y" iff there is an SDRAM. Then its start and core size read back; otherwise neither key is bound |
| BiosConfig.HeaderTimerStart | lambdasoc/soc/cpu.py:89 | LX_CONFIG_TIMER_START is defined exactly once, with or without an SDRAM, as the timer's address |
| BiosConfig.HeaderWithoutSdram | lambdasoc/soc/cpu.py:91-97 | without an SDRAM the header defines nothing but the guard and the timer start |
| BiosConfig.HeaderSdramRegion | lambdasoc/soc/cpu.py:92-93 | with an SDRAM, its start and core size read back from the `UL` literals |
| BiosConfig.HeaderSdramCache | lambdasoc/soc/cpu.py:94-96 | with an SDRAM, the cache size reads back, and the memtest sizes are "2*1024*1024" and "65536" |
| CpuSoc.PlannedFiles | lambdasoc/soc/cpu.py:50-84 | the builder writes `<name>.config` and `litex_config.h` |
| CpuSoc.Prepare | lambdasoc/soc/cpu.py:114-118 | prepare fails with the type error iff the SoC is not a CPUSoC; otherwise its plan carries the build directory, name, litedram directory and the two rendered files |
| CpuSoc.PrepareAcceptsCpuSoc | lambdasoc/soc/cpu.py:33-34 | build's call to prepare on itself always yields the plan |
| CpuSoc.Stage | lambdasoc/soc/cpu.py:35-46 | what build returns: the plan exactly when do_build is false; an error only from executing the plan, which is passed on, or from a missing bios.bin |
| CpuSoc.RomAfter | lambdasoc/soc/cpu.py:39-46 | rom.init after build: it differs from before only when the plan was built and executed with do_init set and bios.bin was produced; without both flags it is unchanged |
| CpuSoc.CPUSoC.Build | lambdasoc/soc/cpu.py:27-46 | build returns `Stage` of its plan and leaves the ROM at `RomAfter`; it modifies nothing but the SoC's ROM contents |
| CpuSoc.StageByFlags | lambdasoc/soc/cpu.py:35-42 | build returns the plan iff do_build is false. It returns the build's own products iff it builds successfully with do_init false. It returns None iff the firmware was found and loaded. Every error comes from the build, whose error is passed on, or from a missing bios.bin, which is `ArtifactNotFound` |
| CpuSoc.RomChangesOnlyOnLoad | lambdasoc/soc/cpu.py:42-46 | the ROM changes only on a successful load, and is then the decoded firmware |
| CpuSoc.RomHoldsFirmware | lambdasoc/soc/cpu.py:44-46 | for a data width of at least 8, after a load the ROM has ceil(len / size) words, each below 2^data_width. An image of whole words is recovered exactly by writing them back |
| CpuSoc.PlanAgreesOnTimer | lambdasoc/soc/cpu.py:71-89 | the config and the header give the same timer address |
| CpuSoc.PlanAgreesOnSdram | lambdasoc/soc/cpu.py:76-93 | the config enables the SDRAM iff the header defines its start, and both give the same start and size |

## Left out

- `execute_local` is a parameter of `Build` rather than a model: the build command template (lines 102-112), the `make` invocation and the litedram directory line. Running commands is I/O.
- `products.extract` and `open` are modelled as a lookup in a map from path to bytes. Temporary files and I/O errors are not modelled.
- The template engine itself, and the whitespace, blank lines and text of the autogenerated banner it produces, are out of scope. Each template is modelled as the sequence of lines it emits.
- `ConfigBuilder`'s own templates and commands, which the builder inherits, are not part of this model, and neither is `ConfigBuilder.prepare` beyond the plan's fields.
- `periph_addr`, `InterruptController.find_index` and the peripherals are not modelled. Their results (bus addresses, interrupt indices, sizes) are fields of `SocView`.
- `socproperty` and the HDL classes are out of scope.
- `os.path.abspath` of the litedram directory is not modelled; the directory is passed on as given.
- The default arguments of `build` are not modelled: `name=None` and the name it is replaced with inside `ConfigBuilder`, `litedram_dir="build/litedram"`, `build_dir="build/soc"`, `do_build=True` and `do_init=False`. `Build` takes every argument explicitly.
- `str.upper()` is modelled on ASCII letters only; other Unicode case mappings are left out.
- `hex()` of a negative number is not modelled: every address and size is a natural number.
- The CPU's byte order is one of "little" and "big". Any other string makes `int.from_bytes` raise, and is not modelled.
- The CPU's name and arch are taken to be identifier characters (`[A-Za-z0-9_]`). `Setting` keeps a key and its value apart, but lines 54, 57, 59 and 61 paste both strings into the text unchecked. A name holding a line break, `=` or a blank would make the rendered file bind other keys than `Bindings` reports, and no property about the config covers such a CPU.
- BiosConfig.CpuSelected requires `DistinctCpuKeys`. CONFIG_CPU_<NAME> rebinds another key of the first section for a CPU named `reset_addr` or `byteorder`, or for arch `cpu` with name `muldiv_soft`. For those CPUs the key is bound twice.
- BiosConfig.CpuResetAddress requires CONFIG_CPU_<NAME> to differ from CONFIG_CPU_RESET_ADDR. A CPU named `reset_addr` binds that key twice, to "y" and to the address.
- BiosConfig.CpuByteOrder requires CONFIG_CPU_<NAME> to differ from CONFIG_CPU_BYTEORDER. A CPU named `byteorder` binds that key twice.
- BiosConfig.MulDivSwitch requires CONFIG_CPU_<NAME> to differ from CONFIG_<ARCH>_MULDIV_SOFT. Arch `cpu` with name `muldiv_soft` binds that key twice, to "y" and to the muldiv switch.
