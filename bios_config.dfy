/** The two file templates of BIOSBuilder (lambdasoc/soc/cpu.py, lines
    50-101): the Kconfig-style "<name>.config" and the C header
    "litex_config.h", rendered from an explicit view of the SoC whose
    addresses and interrupt numbers are already resolved. */
module BiosConfig {

  import opened Wrappers
  import opened Numerals
  import opened FirmwareWords

  datatype Cpu = Cpu(
    name: string,
    arch: string,
    dataWidth: nat,
    byteOrder: ByteOrder,
    resetAddr: nat,
    mulDiv: string)

  /** A peripheral's bus address and size in bytes. */
  datatype Region = Region(addr: nat, size: nat)

  /** The optional SDRAM: its bus address, the size of its core and of its cache. */
  datatype Sdram = Sdram(addr: nat, coreSize: nat, cacheSize: nat)

  /** What the templates read from a CPUSoC, with every bus address and
      interrupt index already resolved. */
  datatype SocView = SocView(
    cpu: Cpu,
    rom: Region,
    ram: Region,
    uartAddr: nat,
    uartIrq: nat,
    timerAddr: nat,
    timerIrq: nat,
    timerWidth: nat,
    clkFreq: int,
    sdram: Option<Sdram>)

  /** One logical line of a generated file. */
  datatype Line =
    | Banner                               // the "autogenerated" notice, as a comment
    | Setting(key: string, value: string)  // KEY=VALUE
    | Define(key: string, value: string)   // #define KEY VALUE
    | IfNotDefined(key: string)            // #ifndef KEY
    | EndIf                                // #endif

  /** The values bound to `key`, in file order: what a reader of the file
      sees, as long as every key is one word of identifier characters. */
  function Bindings(lines: seq<Line>, key: string): seq<string>
  {
    if lines == [] then [] else BoundBy(lines[0], key) + Bindings(lines[1..], key)
  }

  function BoundBy(line: Line, key: string): seq<string>
  {
    if (line.Setting? || line.Define?) && line.key == key then [line.value] else []
  }

  /** The address or size that a reader recovers from a key bound exactly once. */
  function ReadHex(lines: seq<Line>, key: string): Option<nat>
  {
    var values := Bindings(lines, key);
    if |values| == 1 then ParseHex(values[0]) else None
  }

  /** The integer that a reader recovers from a key bound exactly once. */
  function ReadDecimal(lines: seq<Line>, key: string): Option<int>
  {
    var values := Bindings(lines, key);
    if |values| == 1 then ParseDecimal(values[0]) else None
  }

  /** The unsigned long literal ("<hex>UL") a C compiler reads from a key
      defined exactly once. */
  function ReadHexUL(lines: seq<Line>, key: string): Option<nat>
  {
    var values := Bindings(lines, key);
    if |values| == 1 && |values[0]| >= 2 && values[0][|values[0]| - 2..] == "UL"
    then ParseHex(values[0][..|values[0]| - 2])
    else None
  }

  /** The quoted byte order that a reader recovers from a key bound exactly once. */
  function ReadByteOrder(lines: seq<Line>, key: string): Option<ByteOrder>
  {
    var values := Bindings(lines, key);
    if |values| == 1 && values[0] == "\"little\"" then Some(Little)
    else if |values| == 1 && values[0] == "\"big\"" then Some(Big)
    else None
  }

  /** str.upper() on ASCII letters. */
  function Upper(s: string): (r: string)
    ensures |r| == |s|
    ensures forall j :: 0 <= j < |s| ==>
      r[j] == if 'a' <= s[j] <= 'z' then (s[j] as int - 32) as char else s[j]
  {
    if s == [] then []
    else [if 'a' <= s[0] <= 'z' then (s[0] as int - 32) as char else s[0]] + Upper(s[1..])
  }

  function ByteOrderName(order: ByteOrder): string
  {
    match order
    case Little => "little"
    case Big => "big"
  }

  function CpuKey(cpu: Cpu): string
  {
    "CONFIG_CPU_" + Upper(cpu.name)
  }

  function ArchKey(cpu: Cpu): string
  {
    "CONFIG_ARCH_" + Upper(cpu.arch)
  }

  function MulDivKey(cpu: Cpu): string
  {
    "CONFIG_" + Upper(cpu.arch) + "_MULDIV_SOFT"
  }

  const HeaderGuard := "__LITEX_CONFIG_H_LAMBDASOC"

  /** The "{{name}}.config" template (lines 52-83), section by section. */
  function ConfigLines(soc: SocView): (lines: seq<Line>)
    ensures |lines| == (if soc.sdram.Some? then 21 else 19)
    ensures lines[0] == Banner
    ensures forall line :: line in lines ==> line == Banner || line.Setting?
  {
    [Banner] + CpuSection(soc.cpu) + FixedSections(soc)
  }

  /** Lines 63-82, which bind only keys that do not depend on the CPU. */
  function FixedSections(soc: SocView): (lines: seq<Line>)
    ensures |lines| == (if soc.sdram.Some? then 15 else 13)
    ensures forall line :: line in lines ==> line.Setting?
  {
    MemorySection(soc) + UartSection(soc) + TimerSection(soc) + SdramConfig(soc.sdram)
  }

  /** Lines 54-62.  Both branches of the muldiv conditional bind the same
      key, so they are one line whose value is chosen. */
  function CpuSection(cpu: Cpu): (lines: seq<Line>)
    ensures |lines| == 5 && forall line :: line in lines ==> line.Setting?
  {
    [Setting(CpuKey(cpu), "y")]
    + [Setting("CONFIG_CPU_RESET_ADDR", Hex(cpu.resetAddr))]
    + [Setting("CONFIG_CPU_BYTEORDER", "\"" + ByteOrderName(cpu.byteOrder) + "\"")]
    + [Setting(ArchKey(cpu), "y")]
    + [Setting(MulDivKey(cpu), if cpu.mulDiv == "soft" then "y" else "n")]
  }

  /** Lines 63-66. */
  function MemorySection(soc: SocView): (lines: seq<Line>)
    ensures |lines| == 4 && forall line :: line in lines ==> line.Setting?
  {
    [Setting("CONFIG_ROM_START", Hex(soc.rom.addr))]
    + [Setting("CONFIG_ROM_SIZE", Hex(soc.rom.size))]
    + [Setting("CONFIG_RAM_START", Hex(soc.ram.addr))]
    + [Setting("CONFIG_RAM_SIZE", Hex(soc.ram.size))]
  }

  /** Lines 67-70. */
  function UartSection(soc: SocView): (lines: seq<Line>)
    ensures |lines| == 4 && forall line :: line in lines ==> line.Setting?
  {
    [Setting("CONFIG_UART_START", Hex(soc.uartAddr))]
    + [Setting("CONFIG_UART_IRQNO", Decimal(soc.uartIrq))]
    + [Setting("CONFIG_UART_RX_RINGBUF_SIZE_LOG2", "7")]
    + [Setting("CONFIG_UART_TX_RINGBUF_SIZE_LOG2", "7")]
  }

  /** Lines 71-74. */
  function TimerSection(soc: SocView): (lines: seq<Line>)
    ensures |lines| == 4 && forall line :: line in lines ==> line.Setting?
  {
    [Setting("CONFIG_TIMER_START", Hex(soc.timerAddr))]
    + [Setting("CONFIG_TIMER_IRQNO", Decimal(soc.timerIrq))]
    + [Setting("CONFIG_TIMER_CTR_WIDTH", Decimal(soc.timerWidth))]
    + [Setting("CONFIG_CLOCK_FREQ", Decimal(soc.clkFreq))]
  }

  /** Lines 76-82. */
  function SdramConfig(sdram: Option<Sdram>): (lines: seq<Line>)
    ensures |lines| == (if sdram.Some? then 3 else 1)
    ensures forall line :: line in lines ==> line.Setting?
  {
    match sdram
    case Some(d) =>
      [Setting("CONFIG_WITH_SDRAM", "y")]
      + [Setting("CONFIG_SDRAM_START", Hex(d.addr))]
      + [Setting("CONFIG_SDRAM_SIZE", Hex(d.coreSize))]
    case None =>
      [Setting("CONFIG_WITH_SDRAM", "n")]
  }

  /** The header is an include guard around defines only: it opens by
      testing and defining the guard macro, closes the conditional on its
      last line, and every line in between defines a macro. */
  predicate GuardedDefines(h: seq<Line>)
  {
    |h| >= 5 && h[0] == Banner && h[1] == IfNotDefined(HeaderGuard)
    && h[2] == Define(HeaderGuard, "") && h[|h| - 1] == EndIf
    && (forall i :: 2 <= i < |h| - 1 ==> h[i].Define?)
  }

  /** The "litex_config.h" template (lines 84-100). */
  function HeaderLines(soc: SocView): (h: seq<Line>)
    ensures GuardedDefines(h)
    ensures |h| == (if soc.sdram.Some? then 10 else 5)
  {
    [Banner]
    + [IfNotDefined(HeaderGuard)]
    + [Define(HeaderGuard, "")]
    + [Define("LX_CONFIG_TIMER_START", Hex(soc.timerAddr))]
    + SdramHeader(soc.sdram)
    + [EndIf]
  }

  function SdramHeader(sdram: Option<Sdram>): (lines: seq<Line>)
    ensures |lines| == (if sdram.Some? then 5 else 0)
    ensures forall line :: line in lines ==> line.Define?
  {
    match sdram
    case Some(d) =>
      [Define("LX_CONFIG_SDRAM_START", Hex(d.addr) + "UL")]
      + [Define("LX_CONFIG_SDRAM_SIZE", Hex(d.coreSize) + "UL")]
      + [Define("LX_CONFIG_SDRAM_CACHE_SIZE", Decimal(d.cacheSize))]
      + [Define("LX_CONFIG_MEMTEST_DATA_SIZE", "2*1024*1024")]
      + [Define("LX_CONFIG_MEMTEST_ADDR_SIZE", "65536")]
    case None =>
      []
  }

  // ---------------------------------------------------------------------
  // Reading the bindings of a generated file

  lemma {:induction false} BindingsAppend(a: seq<Line>, b: seq<Line>, key: string)
    ensures Bindings(a + b, key) == Bindings(a, key) + Bindings(b, key)
    decreases |a|
  {
    if a == [] {
      assert a + b == b;
    } else {
      assert (a + b)[0] == a[0];
      assert (a + b)[1..] == a[1..] + b;
      BindingsAppend(a[1..], b, key);
    }
  }

  lemma BindingsSnoc(a: seq<Line>, line: Line, key: string)
    ensures Bindings(a + [line], key) == Bindings(a, key) + BoundBy(line, key)
  {
    BindingsAppend(a, [line], key);
    assert [line][1..] == [];
  }

  lemma SectionOfFour(a: Line, b: Line, c: Line, d: Line, key: string)
    ensures Bindings([a] + [b] + [c] + [d], key)
         == BoundBy(a, key) + BoundBy(b, key) + BoundBy(c, key) + BoundBy(d, key)
  {
    BindingsSnoc([a] + [b] + [c], d, key);
    BindingsSnoc([a] + [b], c, key);
    BindingsSnoc([a], b, key);
    BindingsSnoc([], a, key);
  }

  /** A setting that is in the file is seen by a reader of its key. */
  lemma {:induction false} SettingIsBound(lines: seq<Line>, key: string, value: string)
    requires Setting(key, value) in lines
    ensures value in Bindings(lines, key)
    decreases |lines|
  {
    if lines[0] != Setting(key, value) {
      SettingIsBound(lines[1..], key, value);
    }
  }

  // ---------------------------------------------------------------------
  // Which section of the config binds a key

  /** Tells the keys of the first section (CONFIG_CPU_*, CONFIG_ARCH_* and
      CONFIG_<ARCH>_MULDIV_SOFT, which end in "FT") from every later key. */
  predicate CpuDependent(key: string)
  {
    (|key| >= 9 && key[7] == 'C' && key[8] == 'P')
    || (|key| >= 9 && key[7] == 'A' && key[8] == 'R')
    || (|key| >= 2 && key[|key| - 2] == 'F')
  }

  lemma CpuSectionKeys(cpu: Cpu)
    ensures CpuDependent(CpuKey(cpu)) && CpuDependent(ArchKey(cpu)) && CpuDependent(MulDivKey(cpu))
    ensures CpuDependent("CONFIG_CPU_RESET_ADDR") && CpuDependent("CONFIG_CPU_BYTEORDER")
  {
    assert CpuKey(cpu)[7] == 'C' && CpuKey(cpu)[8] == 'P';
    assert ArchKey(cpu)[7] == 'A' && ArchKey(cpu)[8] == 'R';
    var k := MulDivKey(cpu);
    assert k[|k| - 2] == 'F';
  }

  lemma CpuSectionBindings(cpu: Cpu, key: string)
    ensures Bindings(CpuSection(cpu), key)
         == BoundBy(Setting(CpuKey(cpu), "y"), key)
          + BoundBy(Setting("CONFIG_CPU_RESET_ADDR", Hex(cpu.resetAddr)), key)
          + BoundBy(Setting("CONFIG_CPU_BYTEORDER", "\"" + ByteOrderName(cpu.byteOrder) + "\""), key)
          + BoundBy(Setting(ArchKey(cpu), "y"), key)
          + BoundBy(Setting(MulDivKey(cpu), if cpu.mulDiv == "soft" then "y" else "n"), key)
  {
    var l1 := Setting(CpuKey(cpu), "y");
    var l2 := Setting("CONFIG_CPU_RESET_ADDR", Hex(cpu.resetAddr));
    var l3 := Setting("CONFIG_CPU_BYTEORDER", "\"" + ByteOrderName(cpu.byteOrder) + "\"");
    var l4 := Setting(ArchKey(cpu), "y");
    BindingsSnoc([l1] + [l2] + [l3] + [l4], Setting(MulDivKey(cpu), if cpu.mulDiv == "soft" then "y" else "n"), key);
    SectionOfFour(l1, l2, l3, l4, key);
  }

  lemma MemoryBindings(soc: SocView, key: string)
    ensures Bindings(MemorySection(soc), key)
         == BoundBy(Setting("CONFIG_ROM_START", Hex(soc.rom.addr)), key)
          + BoundBy(Setting("CONFIG_ROM_SIZE", Hex(soc.rom.size)), key)
          + BoundBy(Setting("CONFIG_RAM_START", Hex(soc.ram.addr)), key)
          + BoundBy(Setting("CONFIG_RAM_SIZE", Hex(soc.ram.size)), key)
  {
    SectionOfFour(Setting("CONFIG_ROM_START", Hex(soc.rom.addr)), Setting("CONFIG_ROM_SIZE", Hex(soc.rom.size)),
      Setting("CONFIG_RAM_START", Hex(soc.ram.addr)), Setting("CONFIG_RAM_SIZE", Hex(soc.ram.size)), key);
  }

  lemma UartBindings(soc: SocView, key: string)
    ensures Bindings(UartSection(soc), key)
         == BoundBy(Setting("CONFIG_UART_START", Hex(soc.uartAddr)), key)
          + BoundBy(Setting("CONFIG_UART_IRQNO", Decimal(soc.uartIrq)), key)
          + BoundBy(Setting("CONFIG_UART_RX_RINGBUF_SIZE_LOG2", "7"), key)
          + BoundBy(Setting("CONFIG_UART_TX_RINGBUF_SIZE_LOG2", "7"), key)
  {
    SectionOfFour(Setting("CONFIG_UART_START", Hex(soc.uartAddr)), Setting("CONFIG_UART_IRQNO", Decimal(soc.uartIrq)),
      Setting("CONFIG_UART_RX_RINGBUF_SIZE_LOG2", "7"), Setting("CONFIG_UART_TX_RINGBUF_SIZE_LOG2", "7"), key);
  }

  lemma TimerBindings(soc: SocView, key: string)
    ensures Bindings(TimerSection(soc), key)
         == BoundBy(Setting("CONFIG_TIMER_START", Hex(soc.timerAddr)), key)
          + BoundBy(Setting("CONFIG_TIMER_IRQNO", Decimal(soc.timerIrq)), key)
          + BoundBy(Setting("CONFIG_TIMER_CTR_WIDTH", Decimal(soc.timerWidth)), key)
          + BoundBy(Setting("CONFIG_CLOCK_FREQ", Decimal(soc.clkFreq)), key)
  {
    SectionOfFour(Setting("CONFIG_TIMER_START", Hex(soc.timerAddr)), Setting("CONFIG_TIMER_IRQNO", Decimal(soc.timerIrq)),
      Setting("CONFIG_TIMER_CTR_WIDTH", Decimal(soc.timerWidth)), Setting("CONFIG_CLOCK_FREQ", Decimal(soc.clkFreq)), key);
  }

  lemma SdramConfigBindings(sdram: Option<Sdram>, key: string)
    ensures sdram.None? ==>
      Bindings(SdramConfig(sdram), key) == BoundBy(Setting("CONFIG_WITH_SDRAM", "n"), key)
    ensures sdram.Some? ==>
      Bindings(SdramConfig(sdram), key)
      == BoundBy(Setting("CONFIG_WITH_SDRAM", "y"), key)
       + BoundBy(Setting("CONFIG_SDRAM_START", Hex(sdram.value.addr)), key)
       + BoundBy(Setting("CONFIG_SDRAM_SIZE", Hex(sdram.value.coreSize)), key)
  {
    match sdram
    case Some(d) =>
      var l1, l2 := Setting("CONFIG_WITH_SDRAM", "y"), Setting("CONFIG_SDRAM_START", Hex(d.addr));
      BindingsSnoc([l1] + [l2], Setting("CONFIG_SDRAM_SIZE", Hex(d.coreSize)), key);
      BindingsSnoc([l1], l2, key);
      BindingsSnoc([], l1, key);
    case None =>
      BindingsSnoc([], Setting("CONFIG_WITH_SDRAM", "n"), key);
  }

  /* A key of one section is never bound by another.  The fixed sections are
     told apart by the first letter after "CONFIG_": R(OM/AM), U(ART),
     T(IMER)/C(LOCK), W(ITH_SDRAM)/S(DRAM). */

  lemma CpuSectionSilent(cpu: Cpu, key: string)
    requires !CpuDependent(key)
    ensures Bindings(CpuSection(cpu), key) == []
  {
    CpuSectionKeys(cpu);
    CpuSectionBindings(cpu, key);
  }

  lemma MemorySilent(soc: SocView, key: string)
    requires |key| > 7 && key[7] != 'R'
    ensures Bindings(MemorySection(soc), key) == []
  {
    MemoryBindings(soc, key);
  }

  lemma UartSilent(soc: SocView, key: string)
    requires |key| > 7 && key[7] != 'U'
    ensures Bindings(UartSection(soc), key) == []
  {
    UartBindings(soc, key);
  }

  lemma TimerSilent(soc: SocView, key: string)
    requires |key| > 7 && key[7] != 'T' && key[7] != 'C'
    ensures Bindings(TimerSection(soc), key) == []
  {
    TimerBindings(soc, key);
  }

  lemma SdramConfigSilent(sdram: Option<Sdram>, key: string)
    requires |key| > 7 && key[7] != 'W' && key[7] != 'S'
    ensures Bindings(SdramConfig(sdram), key) == []
  {
    SdramConfigBindings(sdram, key);
  }

  lemma MemoryIgnoresCpuKeys(soc: SocView, key: string)
    requires CpuDependent(key)
    ensures Bindings(MemorySection(soc), key) == []
  {
    MemoryBindings(soc, key);
  }

  lemma UartIgnoresCpuKeys(soc: SocView, key: string)
    requires CpuDependent(key)
    ensures Bindings(UartSection(soc), key) == []
  {
    UartKeysFixed();
    UartBindings(soc, key);
  }

  lemma UartKeysFixed()
    ensures !CpuDependent("CONFIG_UART_START") && !CpuDependent("CONFIG_UART_IRQNO")
    ensures !CpuDependent("CONFIG_UART_RX_RINGBUF_SIZE_LOG2")
    ensures !CpuDependent("CONFIG_UART_TX_RINGBUF_SIZE_LOG2")
  {
  }

  lemma TimerIgnoresCpuKeys(soc: SocView, key: string)
    requires CpuDependent(key)
    ensures Bindings(TimerSection(soc), key) == []
  {
    TimerBindings(soc, key);
  }

  lemma SdramConfigIgnoresCpuKeys(sdram: Option<Sdram>, key: string)
    requires CpuDependent(key)
    ensures Bindings(SdramConfig(sdram), key) == []
  {
    SdramConfigBindings(sdram, key);
  }

  /** Lines after a banner, which binds nothing. */
  lemma SplitAfterBanner(a: seq<Line>, b: seq<Line>, key: string)
    ensures Bindings([Banner] + a + b, key) == Bindings(a, key) + Bindings(b, key)
  {
    var head := [Banner] + a;
    assert head[0] == Banner && head[1..] == a;
    assert Bindings(head, key) == Bindings(a, key);
    BindingsAppend(head, b, key);
  }

  lemma ConfigSplit(soc: SocView, key: string)
    ensures Bindings(ConfigLines(soc), key)
         == Bindings(CpuSection(soc.cpu), key) + Bindings(FixedSections(soc), key)
  {
    SplitAfterBanner(CpuSection(soc.cpu), FixedSections(soc), key);
  }

  lemma FixedSplit(soc: SocView, key: string)
    ensures Bindings(FixedSections(soc), key)
         == Bindings(MemorySection(soc), key) + Bindings(UartSection(soc), key)
          + Bindings(TimerSection(soc), key) + Bindings(SdramConfig(soc.sdram), key)
  {
    var mem, uart, timer := MemorySection(soc), UartSection(soc), TimerSection(soc);
    BindingsAppend(mem + uart + timer, SdramConfig(soc.sdram), key);
    BindingsAppend(mem + uart, timer, key);
    BindingsAppend(mem, uart, key);
  }

  /** A CPU-dependent key is read from the first section alone. */
  lemma CpuKeyBindings(soc: SocView, key: string)
    requires CpuDependent(key)
    ensures Bindings(ConfigLines(soc), key) == Bindings(CpuSection(soc.cpu), key)
  {
    ConfigSplit(soc, key);
    FixedSplit(soc, key);
    MemoryIgnoresCpuKeys(soc, key);
    UartIgnoresCpuKeys(soc, key);
    TimerIgnoresCpuKeys(soc, key);
    SdramConfigIgnoresCpuKeys(soc.sdram, key);
  }

  /** Any other key is read from the sections after the first. */
  lemma FixedKeyBindings(soc: SocView, key: string)
    requires !CpuDependent(key)
    ensures Bindings(ConfigLines(soc), key)
         == Bindings(MemorySection(soc), key) + Bindings(UartSection(soc), key)
          + Bindings(TimerSection(soc), key) + Bindings(SdramConfig(soc.sdram), key)
  {
    ConfigSplit(soc, key);
    CpuSectionSilent(soc.cpu, key);
    FixedSplit(soc, key);
  }

  // ---------------------------------------------------------------------
  // Properties of the rendered config

  /** The keys that a CPU's name can make ambiguous.  CONFIG_CPU_<NAME>
      rebinds another key of the first section when the upper-cased name is
      RESET_ADDR or BYTEORDER, or when "CPU_" + NAME equals
      <ARCH> + "_MULDIV_SOFT" (arch "cpu" with name "muldiv_soft"). */
  predicate DistinctCpuKeys(cpu: Cpu)
  {
    CpuKey(cpu) != "CONFIG_CPU_RESET_ADDR"
    && CpuKey(cpu) != "CONFIG_CPU_BYTEORDER"
    && CpuKey(cpu) != MulDivKey(cpu)
  }

  /** The five keys of the first section are pairwise distinct. */
  lemma CpuKeysDistinct(cpu: Cpu)
    ensures ArchKey(cpu) != CpuKey(cpu) && ArchKey(cpu) != MulDivKey(cpu)
    ensures ArchKey(cpu) != "CONFIG_CPU_RESET_ADDR" && ArchKey(cpu) != "CONFIG_CPU_BYTEORDER"
    ensures MulDivKey(cpu) != "CONFIG_CPU_RESET_ADDR" && MulDivKey(cpu) != "CONFIG_CPU_BYTEORDER"
  {
    var name, arch, muldiv := CpuKey(cpu), ArchKey(cpu), MulDivKey(cpu);
    assert name[7] == 'C' && arch[7] == 'A' && |arch| < |muldiv|;
    assert muldiv[|muldiv| - 2] == 'F';
  }

  /** CONFIG_<ARCH>_MULDIV_SOFT is bound exactly once, to "y" exactly when
      the CPU's muldiv mode is "soft" and to "n" otherwise: exactly one of the
      two lines of the conditional is in the file. */
  lemma MulDivSwitch(soc: SocView)
    requires CpuKey(soc.cpu) != MulDivKey(soc.cpu)
    ensures Bindings(ConfigLines(soc), MulDivKey(soc.cpu))
         == [if soc.cpu.mulDiv == "soft" then "y" else "n"]
    ensures Setting(MulDivKey(soc.cpu), "y") in ConfigLines(soc) <==> soc.cpu.mulDiv == "soft"
    ensures Setting(MulDivKey(soc.cpu), "n") in ConfigLines(soc) <==> soc.cpu.mulDiv != "soft"
  {
    var cpu := soc.cpu;
    var k, v := MulDivKey(cpu), if cpu.mulDiv == "soft" then "y" else "n";
    assert Bindings(ConfigLines(soc), k) == [v] by {
      CpuSectionKeys(cpu);
      CpuKeyBindings(soc, k);
      MulDivOnce(cpu);
    }
    assert Setting(k, v) in ConfigLines(soc) by {
      var l1, l2 := Setting(CpuKey(cpu), "y"), Setting("CONFIG_CPU_RESET_ADDR", Hex(cpu.resetAddr));
      var l3 := Setting("CONFIG_CPU_BYTEORDER", "\"" + ByteOrderName(cpu.byteOrder) + "\"");
      var l4 := Setting(ArchKey(cpu), "y");
      assert CpuSection(cpu) == ([l1] + [l2] + [l3] + [l4]) + [Setting(k, v)];
    }
    if Setting(k, "y") in ConfigLines(soc) {
      SettingIsBound(ConfigLines(soc), k, "y");
    }
    if Setting(k, "n") in ConfigLines(soc) {
      SettingIsBound(ConfigLines(soc), k, "n");
    }
  }

  lemma MulDivOnce(cpu: Cpu)
    requires CpuKey(cpu) != MulDivKey(cpu)
    ensures Bindings(CpuSection(cpu), MulDivKey(cpu)) == [if cpu.mulDiv == "soft" then "y" else "n"]
  {
    var k := MulDivKey(cpu);
    assert k[|k| - 2] == 'F' && |ArchKey(cpu)| < |k|;
    CpuSectionBindings(cpu, k);
  }

  lemma CpuNameBound(soc: SocView)
    requires DistinctCpuKeys(soc.cpu)
    ensures Bindings(ConfigLines(soc), CpuKey(soc.cpu)) == ["y"]
  {
    var cpu := soc.cpu;
    CpuSectionKeys(cpu);
    CpuKeyBindings(soc, CpuKey(cpu));
    CpuKeysDistinct(cpu);
    CpuSectionBindings(cpu, CpuKey(cpu));
  }

  lemma ArchBound(soc: SocView)
    ensures Bindings(ConfigLines(soc), ArchKey(soc.cpu)) == ["y"]
  {
    var cpu := soc.cpu;
    CpuSectionKeys(cpu);
    CpuKeyBindings(soc, ArchKey(cpu));
    CpuKeysDistinct(cpu);
    CpuSectionBindings(cpu, ArchKey(cpu));
  }

  /** For every CPU, CONFIG_CPU_<NAME>=y and CONFIG_ARCH_<ARCH>=y are in the
      config, and CONFIG_ARCH_<ARCH> is bound exactly once. */
  lemma ArchSelected(soc: SocView)
    ensures Bindings(ConfigLines(soc), ArchKey(soc.cpu)) == ["y"]
    ensures Setting(CpuKey(soc.cpu), "y") in ConfigLines(soc)
    ensures Setting(ArchKey(soc.cpu), "y") in ConfigLines(soc)
  {
    ArchBound(soc);
    var c := CpuSection(soc.cpu);
    assert ConfigLines(soc) == [Banner] + c + FixedSections(soc);
    assert ConfigLines(soc)[1] == c[0] && ConfigLines(soc)[4] == c[3];
  }

  /** CONFIG_CPU_<NAME> is bound exactly once, to "y", unless the name
      makes it another key of the first section. */
  lemma CpuSelected(soc: SocView)
    requires DistinctCpuKeys(soc.cpu)
    ensures Bindings(ConfigLines(soc), CpuKey(soc.cpu)) == ["y"]
  {
    CpuNameBound(soc);
  }

  /** The reset address reads back as the CPU's own. */
  lemma CpuResetAddress(soc: SocView)
    requires CpuKey(soc.cpu) != "CONFIG_CPU_RESET_ADDR"
    ensures ReadHex(ConfigLines(soc), "CONFIG_CPU_RESET_ADDR") == Some(soc.cpu.resetAddr)
  {
    var cpu := soc.cpu;
    assert Bindings(ConfigLines(soc), "CONFIG_CPU_RESET_ADDR") == [Hex(cpu.resetAddr)] by {
      CpuSectionKeys(cpu);
      CpuKeyBindings(soc, "CONFIG_CPU_RESET_ADDR");
      CpuKeysDistinct(cpu);
      CpuSectionBindings(cpu, "CONFIG_CPU_RESET_ADDR");
    }
    HexRoundTrip(cpu.resetAddr);
  }

  lemma ByteOrderBound(soc: SocView)
    requires CpuKey(soc.cpu) != "CONFIG_CPU_BYTEORDER"
    ensures Bindings(ConfigLines(soc), "CONFIG_CPU_BYTEORDER") == ["\"" + ByteOrderName(soc.cpu.byteOrder) + "\""]
  {
    var cpu := soc.cpu;
    CpuSectionKeys(cpu);
    CpuKeyBindings(soc, "CONFIG_CPU_BYTEORDER");
    CpuKeysDistinct(cpu);
    CpuSectionBindings(cpu, "CONFIG_CPU_BYTEORDER");
  }

  /** The byte order reads back as the CPU's own. */
  lemma CpuByteOrder(soc: SocView)
    requires CpuKey(soc.cpu) != "CONFIG_CPU_BYTEORDER"
    ensures ReadByteOrder(ConfigLines(soc), "CONFIG_CPU_BYTEORDER") == Some(soc.cpu.byteOrder)
  {
    ByteOrderBound(soc);
    assert "\"" + ByteOrderName(Little) + "\"" == "\"little\"";
    assert "\"" + ByteOrderName(Big) + "\"" == "\"big\"";
  }

  // ---------------------------------------------------------------------
  // The sections after the first

  /** A key whose section letter is R is read from the memory map alone. */
  lemma MemoryKeyBindings(soc: SocView, key: string)
    requires !CpuDependent(key) && |key| > 7 && key[7] == 'R'
    ensures Bindings(ConfigLines(soc), key) == Bindings(MemorySection(soc), key)
  {
    FixedKeyBindings(soc, key);
    UartSilent(soc, key);
    TimerSilent(soc, key);
    SdramConfigSilent(soc.sdram, key);
  }

  lemma UartKeyBindings(soc: SocView, key: string)
    requires !CpuDependent(key) && |key| > 7 && key[7] == 'U'
    ensures Bindings(ConfigLines(soc), key) == Bindings(UartSection(soc), key)
  {
    FixedKeyBindings(soc, key);
    MemorySilent(soc, key);
    TimerSilent(soc, key);
    SdramConfigSilent(soc.sdram, key);
  }

  lemma TimerKeyBindings(soc: SocView, key: string)
    requires !CpuDependent(key) && |key| > 7 && (key[7] == 'T' || key[7] == 'C')
    ensures Bindings(ConfigLines(soc), key) == Bindings(TimerSection(soc), key)
  {
    FixedKeyBindings(soc, key);
    MemorySilent(soc, key);
    UartSilent(soc, key);
    SdramConfigSilent(soc.sdram, key);
  }

  lemma SdramKeyBindings(soc: SocView, key: string)
    requires !CpuDependent(key) && |key| > 7 && (key[7] == 'W' || key[7] == 'S')
    ensures Bindings(ConfigLines(soc), key) == Bindings(SdramConfig(soc.sdram), key)
  {
    FixedKeyBindings(soc, key);
    MemorySilent(soc, key);
    UartSilent(soc, key);
    TimerSilent(soc, key);
  }

  /* Each key of the memory, UART and timer sections is bound exactly once,
     to the value its template line writes. */
  lemma RomStartBound(soc: SocView)
    ensures Bindings(ConfigLines(soc), "CONFIG_ROM_START") == [Hex(soc.rom.addr)]
  {
    MemoryKeyBindings(soc, "CONFIG_ROM_START");
    MemoryBindings(soc, "CONFIG_ROM_START");
  }

  lemma RomSizeBound(soc: SocView)
    ensures Bindings(ConfigLines(soc), "CONFIG_ROM_SIZE") == [Hex(soc.rom.size)]
  {
    MemoryKeyBindings(soc, "CONFIG_ROM_SIZE");
    MemoryBindings(soc, "CONFIG_ROM_SIZE");
  }

  lemma RamStartBound(soc: SocView)
    ensures Bindings(ConfigLines(soc), "CONFIG_RAM_START") == [Hex(soc.ram.addr)]
  {
    MemoryKeyBindings(soc, "CONFIG_RAM_START");
    MemoryBindings(soc, "CONFIG_RAM_START");
  }

  lemma RamSizeBound(soc: SocView)
    ensures Bindings(ConfigLines(soc), "CONFIG_RAM_SIZE") == [Hex(soc.ram.size)]
  {
    MemoryKeyBindings(soc, "CONFIG_RAM_SIZE");
    MemoryBindings(soc, "CONFIG_RAM_SIZE");
  }

  lemma UartStartBound(soc: SocView)
    ensures Bindings(ConfigLines(soc), "CONFIG_UART_START") == [Hex(soc.uartAddr)]
  {
    UartKeyBindings(soc, "CONFIG_UART_START");
    UartBindings(soc, "CONFIG_UART_START");
  }

  lemma UartIrqBound(soc: SocView)
    ensures Bindings(ConfigLines(soc), "CONFIG_UART_IRQNO") == [Decimal(soc.uartIrq)]
  {
    UartKeyBindings(soc, "CONFIG_UART_IRQNO");
    UartBindings(soc, "CONFIG_UART_IRQNO");
  }

  lemma UartRxBufferBound(soc: SocView)
    ensures Bindings(ConfigLines(soc), "CONFIG_UART_RX_RINGBUF_SIZE_LOG2") == ["7"]
  {
    UartKeyBindings(soc, "CONFIG_UART_RX_RINGBUF_SIZE_LOG2");
    UartBindings(soc, "CONFIG_UART_RX_RINGBUF_SIZE_LOG2");
  }

  lemma UartTxBufferBound(soc: SocView)
    ensures Bindings(ConfigLines(soc), "CONFIG_UART_TX_RINGBUF_SIZE_LOG2") == ["7"]
  {
    UartKeyBindings(soc, "CONFIG_UART_TX_RINGBUF_SIZE_LOG2");
    UartBindings(soc, "CONFIG_UART_TX_RINGBUF_SIZE_LOG2");
  }

  lemma TimerStartBound(soc: SocView)
    ensures Bindings(ConfigLines(soc), "CONFIG_TIMER_START") == [Hex(soc.timerAddr)]
  {
    TimerKeyBindings(soc, "CONFIG_TIMER_START");
    TimerBindings(soc, "CONFIG_TIMER_START");
  }

  lemma TimerIrqBound(soc: SocView)
    ensures Bindings(ConfigLines(soc), "CONFIG_TIMER_IRQNO") == [Decimal(soc.timerIrq)]
  {
    TimerKeyBindings(soc, "CONFIG_TIMER_IRQNO");
    TimerBindings(soc, "CONFIG_TIMER_IRQNO");
  }

  lemma TimerWidthBound(soc: SocView)
    ensures Bindings(ConfigLines(soc), "CONFIG_TIMER_CTR_WIDTH") == [Decimal(soc.timerWidth)]
  {
    TimerKeyBindings(soc, "CONFIG_TIMER_CTR_WIDTH");
    TimerBindings(soc, "CONFIG_TIMER_CTR_WIDTH");
  }

  lemma ClockFreqBound(soc: SocView)
    ensures Bindings(ConfigLines(soc), "CONFIG_CLOCK_FREQ") == [Decimal(soc.clkFreq)]
  {
    TimerKeyBindings(soc, "CONFIG_CLOCK_FREQ");
    TimerBindings(soc, "CONFIG_CLOCK_FREQ");
  }

  /** The ROM and RAM addresses and sizes read back as the SoC's own. */
  lemma MemoryMapReadsBack(soc: SocView)
    ensures ReadHex(ConfigLines(soc), "CONFIG_ROM_START") == Some(soc.rom.addr)
    ensures ReadHex(ConfigLines(soc), "CONFIG_ROM_SIZE") == Some(soc.rom.size)
    ensures ReadHex(ConfigLines(soc), "CONFIG_RAM_START") == Some(soc.ram.addr)
    ensures ReadHex(ConfigLines(soc), "CONFIG_RAM_SIZE") == Some(soc.ram.size)
  {
    RomStartBound(soc);
    RomSizeBound(soc);
    RamStartBound(soc);
    RamSizeBound(soc);
    HexRoundTrip(soc.rom.addr);
    HexRoundTrip(soc.rom.size);
    HexRoundTrip(soc.ram.addr);
    HexRoundTrip(soc.ram.size);
  }

  /** The UART's address and interrupt number read back as the SoC's own,
      and both ring buffers are set to 2^7 bytes. */
  lemma UartReadsBack(soc: SocView)
    ensures ReadHex(ConfigLines(soc), "CONFIG_UART_START") == Some(soc.uartAddr)
    ensures ReadDecimal(ConfigLines(soc), "CONFIG_UART_IRQNO") == Some(soc.uartIrq)
    ensures ReadDecimal(ConfigLines(soc), "CONFIG_UART_RX_RINGBUF_SIZE_LOG2") == Some(7)
    ensures ReadDecimal(ConfigLines(soc), "CONFIG_UART_TX_RINGBUF_SIZE_LOG2") == Some(7)
  {
    UartStartBound(soc);
    UartIrqBound(soc);
    UartRxBufferBound(soc);
    UartTxBufferBound(soc);
    HexRoundTrip(soc.uartAddr);
    DecimalRoundTrip(soc.uartIrq);
    DecimalRoundTrip(7);
  }

  /** The timer's address, interrupt number and counter width and the clock
      frequency read back as the SoC's own. */
  lemma TimerReadsBack(soc: SocView)
    ensures ReadHex(ConfigLines(soc), "CONFIG_TIMER_START") == Some(soc.timerAddr)
    ensures ReadDecimal(ConfigLines(soc), "CONFIG_TIMER_IRQNO") == Some(soc.timerIrq)
    ensures ReadDecimal(ConfigLines(soc), "CONFIG_TIMER_CTR_WIDTH") == Some(soc.timerWidth)
    ensures ReadDecimal(ConfigLines(soc), "CONFIG_CLOCK_FREQ") == Some(soc.clkFreq)
  {
    TimerStartBound(soc);
    TimerIrqBound(soc);
    TimerWidthBound(soc);
    ClockFreqBound(soc);
    HexRoundTrip(soc.timerAddr);
    DecimalRoundTrip(soc.timerIrq);
    DecimalRoundTrip(soc.timerWidth);
    DecimalRoundTrip(soc.clkFreq);
  }

  lemma WithSdramBound(soc: SocView)
    ensures Bindings(ConfigLines(soc), "CONFIG_WITH_SDRAM") == [if soc.sdram.Some? then "y" else "n"]
  {
    SdramKeyBindings(soc, "CONFIG_WITH_SDRAM");
    SdramConfigBindings(soc.sdram, "CONFIG_WITH_SDRAM");
  }

  lemma SdramStartBound(soc: SocView)
    ensures Bindings(ConfigLines(soc), "CONFIG_SDRAM_START")
         == (if soc.sdram.Some? then [Hex(soc.sdram.value.addr)] else [])
  {
    SdramKeyBindings(soc, "CONFIG_SDRAM_START");
    SdramConfigBindings(soc.sdram, "CONFIG_SDRAM_START");
  }

  lemma SdramSizeBound(soc: SocView)
    ensures Bindings(ConfigLines(soc), "CONFIG_SDRAM_SIZE")
         == (if soc.sdram.Some? then [Hex(soc.sdram.value.coreSize)] else [])
  {
    SdramKeyBindings(soc, "CONFIG_SDRAM_SIZE");
    SdramConfigBindings(soc.sdram, "CONFIG_SDRAM_SIZE");
  }

  /** CONFIG_WITH_SDRAM is bound once, to "y" exactly when the SoC has an
      SDRAM; then its address and core size read back, and otherwise
      neither key is bound at all. */
  lemma SdramSwitch(soc: SocView)
    ensures Bindings(ConfigLines(soc), "CONFIG_WITH_SDRAM") == [if soc.sdram.Some? then "y" else "n"]
    ensures soc.sdram.Some? ==>
      ReadHex(ConfigLines(soc), "CONFIG_SDRAM_START") == Some(soc.sdram.value.addr)
      && ReadHex(ConfigLines(soc), "CONFIG_SDRAM_SIZE") == Some(soc.sdram.value.coreSize)
    ensures soc.sdram.None? ==>
      Bindings(ConfigLines(soc), "CONFIG_SDRAM_START") == []
      && Bindings(ConfigLines(soc), "CONFIG_SDRAM_SIZE") == []
  {
    WithSdramBound(soc);
    SdramStartBound(soc);
    SdramSizeBound(soc);
    if soc.sdram.Some? {
      HexRoundTrip(soc.sdram.value.addr);
      HexRoundTrip(soc.sdram.value.coreSize);
    }
  }

  // ---------------------------------------------------------------------
  // The C header

  /** The header splits into its guard, the timer define and the SDRAM block. */
  lemma HeaderSplit(soc: SocView, key: string)
    ensures Bindings(HeaderLines(soc), key)
         == BoundBy(Define(HeaderGuard, ""), key)
          + BoundBy(Define("LX_CONFIG_TIMER_START", Hex(soc.timerAddr)), key)
          + Bindings(SdramHeader(soc.sdram), key)
  {
    var guard, timer := Define(HeaderGuard, ""), Define("LX_CONFIG_TIMER_START", Hex(soc.timerAddr));
    var four := [Banner] + [IfNotDefined(HeaderGuard)] + [guard] + [timer];
    BindingsSnoc(four + SdramHeader(soc.sdram), EndIf, key);
    BindingsAppend(four, SdramHeader(soc.sdram), key);
    SectionOfFour(Banner, IfNotDefined(HeaderGuard), guard, timer, key);
  }

  lemma SdramHeaderBindings(d: Sdram, key: string)
    ensures Bindings(SdramHeader(Some(d)), key)
         == BoundBy(Define("LX_CONFIG_SDRAM_START", Hex(d.addr) + "UL"), key)
          + BoundBy(Define("LX_CONFIG_SDRAM_SIZE", Hex(d.coreSize) + "UL"), key)
          + BoundBy(Define("LX_CONFIG_SDRAM_CACHE_SIZE", Decimal(d.cacheSize)), key)
          + BoundBy(Define("LX_CONFIG_MEMTEST_DATA_SIZE", "2*1024*1024"), key)
          + BoundBy(Define("LX_CONFIG_MEMTEST_ADDR_SIZE", "65536"), key)
  {
    var l1 := Define("LX_CONFIG_SDRAM_START", Hex(d.addr) + "UL");
    var l2 := Define("LX_CONFIG_SDRAM_SIZE", Hex(d.coreSize) + "UL");
    var l3 := Define("LX_CONFIG_SDRAM_CACHE_SIZE", Decimal(d.cacheSize));
    var l4 := Define("LX_CONFIG_MEMTEST_DATA_SIZE", "2*1024*1024");
    BindingsSnoc([l1] + [l2] + [l3] + [l4], Define("LX_CONFIG_MEMTEST_ADDR_SIZE", "65536"), key);
    SectionOfFour(l1, l2, l3, l4, key);
  }

  /** LX_CONFIG_TIMER_START is defined once, whether or not there is an
      SDRAM, and reads back as the timer's address. */
  lemma HeaderTimerStart(soc: SocView)
    ensures Bindings(HeaderLines(soc), "LX_CONFIG_TIMER_START") == [Hex(soc.timerAddr)]
    ensures ReadHex(HeaderLines(soc), "LX_CONFIG_TIMER_START") == Some(soc.timerAddr)
  {
    HeaderSplit(soc, "LX_CONFIG_TIMER_START");
    assert Bindings(SdramHeader(soc.sdram), "LX_CONFIG_TIMER_START") == [] by {
      if soc.sdram.Some? {
        SdramHeaderBindings(soc.sdram.value, "LX_CONFIG_TIMER_START");
      }
    }
    HexRoundTrip(soc.timerAddr);
  }

  /** Without an SDRAM the header defines none of its SDRAM and memtest
      macros. */
  lemma HeaderWithoutSdram(soc: SocView, key: string)
    requires soc.sdram.None?
    requires key != HeaderGuard && key != "LX_CONFIG_TIMER_START"
    ensures Bindings(HeaderLines(soc), key) == []
  {
    HeaderSplit(soc, key);
  }

  /** The SDRAM's address and core size, as unsigned long literals. */
  lemma HeaderSdramRegion(soc: SocView)
    requires soc.sdram.Some?
    ensures ReadHexUL(HeaderLines(soc), "LX_CONFIG_SDRAM_START") == Some(soc.sdram.value.addr)
    ensures ReadHexUL(HeaderLines(soc), "LX_CONFIG_SDRAM_SIZE") == Some(soc.sdram.value.coreSize)
  {
    var d := soc.sdram.value;
    assert Bindings(HeaderLines(soc), "LX_CONFIG_SDRAM_START") == [Hex(d.addr) + "UL"] by {
      HeaderSplit(soc, "LX_CONFIG_SDRAM_START");
      SdramHeaderBindings(d, "LX_CONFIG_SDRAM_START");
    }
    assert Bindings(HeaderLines(soc), "LX_CONFIG_SDRAM_SIZE") == [Hex(d.coreSize) + "UL"] by {
      HeaderSplit(soc, "LX_CONFIG_SDRAM_SIZE");
      SdramHeaderBindings(d, "LX_CONFIG_SDRAM_SIZE");
    }
    StripUL(Hex(d.addr));
    StripUL(Hex(d.coreSize));
    HexRoundTrip(d.addr);
    HexRoundTrip(d.coreSize);
  }

  lemma StripUL(s: string)
    ensures |s + "UL"| >= 2 && (s + "UL")[|s|..] == "UL" && (s + "UL")[..|s|] == s
  {
  }

  /** The SDRAM's cache size and the two fixed memtest sizes. */
  lemma HeaderSdramCache(soc: SocView)
    requires soc.sdram.Some?
    ensures ReadDecimal(HeaderLines(soc), "LX_CONFIG_SDRAM_CACHE_SIZE") == Some(soc.sdram.value.cacheSize)
    ensures Bindings(HeaderLines(soc), "LX_CONFIG_MEMTEST_DATA_SIZE") == ["2*1024*1024"]
    ensures Bindings(HeaderLines(soc), "LX_CONFIG_MEMTEST_ADDR_SIZE") == ["65536"]
  {
    var d := soc.sdram.value;
    assert Bindings(HeaderLines(soc), "LX_CONFIG_SDRAM_CACHE_SIZE") == [Decimal(d.cacheSize)] by {
      HeaderSplit(soc, "LX_CONFIG_SDRAM_CACHE_SIZE");
      SdramHeaderBindings(d, "LX_CONFIG_SDRAM_CACHE_SIZE");
    }
    DecimalRoundTrip(d.cacheSize);
    assert Bindings(HeaderLines(soc), "LX_CONFIG_MEMTEST_DATA_SIZE") == ["2*1024*1024"] by {
      HeaderSplit(soc, "LX_CONFIG_MEMTEST_DATA_SIZE");
      SdramHeaderBindings(d, "LX_CONFIG_MEMTEST_DATA_SIZE");
    }
    assert Bindings(HeaderLines(soc), "LX_CONFIG_MEMTEST_ADDR_SIZE") == ["65536"] by {
      HeaderSplit(soc, "LX_CONFIG_MEMTEST_ADDR_SIZE");
      SdramHeaderBindings(d, "LX_CONFIG_MEMTEST_ADDR_SIZE");
    }
  }
}
