/** CPUSoC.build and BIOSBuilder.prepare (lambdasoc/soc/cpu.py, lines 15-46
    and 114-118): plan the BIOS build, optionally run it, and optionally
    load the firmware it produced into the SoC's ROM. */
module CpuSoc {

  import opened Wrappers
  import opened FirmwareWords
  import opened BiosConfig

  /** One file of a build plan: its path inside the build directory and its
      rendered lines. */
  datatype GeneratedFile = GeneratedFile(path: string, lines: seq<Line>)

  /** What BIOSBuilder.prepare returns: the files to write and the values the
      build command is rendered with. */
  datatype Plan = Plan(buildDir: string, name: string, litedramDir: string, files: seq<GeneratedFile>)

  /** What executing a plan leaves behind: its output files, by path. */
  datatype Products = Products(files: map<string, seq<Byte>>)

  datatype BuildError =
    | NotACpuSoc                    // the TypeError raised by prepare
    | CommandFailed                 // an error raised while executing the plan
    | ArtifactNotFound(path: string)  // extracting a file the build did not produce

  /** The three values build can return: the plan when it is not built, the
      products when they are not loaded, and nothing once the ROM is loaded. */
  datatype BuildOutcome = Planned(plan: Plan) | Built(products: Products) | Initialized

  const FirmwarePath := "bios/bios.bin"

  /** The two files BIOSBuilder adds to the build directory. */
  function PlannedFiles(soc: SocView, name: string): (files: seq<GeneratedFile>)
    ensures |files| == 2
    ensures files[0].path == name + ".config" && files[1].path == "litex_config.h"
  {
    [GeneratedFile(name + ".config", ConfigLines(soc)), GeneratedFile("litex_config.h", HeaderLines(soc))]
  }

  function PlanFor(soc: SocView, buildDir: string, name: string, litedramDir: string): Plan
  {
    Plan(buildDir, name, litedramDir, PlannedFiles(soc, name))
  }

  /** BIOSBuilder.prepare: only a CPUSoC can be planned. */
  function Prepare(soc: object, buildDir: string, name: string, litedramDir: string): (r: Result<Plan, BuildError>)
    ensures r.Failure? <==> !(soc is CPUSoC)
    ensures r.Failure? ==> r.error == NotACpuSoc
    ensures r.Success? ==> r.value.buildDir == buildDir && r.value.name == name
                           && r.value.litedramDir == litedramDir
    ensures r.Success? ==> r.value.files == PlannedFiles((soc as CPUSoC).desc, name)
  {
    if soc is CPUSoC then Success(PlanFor((soc as CPUSoC).desc, buildDir, name, litedramDir))
    else Failure(NotACpuSoc)
  }

  /** The value build returns, given the plan and the executor of plans. */
  function Stage(plan: Plan, doBuild: bool, doInit: bool, execute: Plan -> Result<Products, BuildError>)
    : (r: Result<BuildOutcome, BuildError>)
    ensures r == Success(Planned(plan)) <==> !doBuild
    ensures r.Failure? ==> doBuild && (execute(plan).Failure? || (doInit && FirmwarePath !in execute(plan).value.files))
    ensures r.Failure? && execute(plan).Failure? ==> r.error == execute(plan).error
  {
    if !doBuild then Success(Planned(plan))
    else match execute(plan)
      case Failure(e) => Failure(e)
      case Success(products) =>
        if !doInit then Success(Built(products))
        else if FirmwarePath in products.files then Success(Initialized)
        else Failure(ArtifactNotFound(FirmwarePath))
  }

  /** The ROM contents after build: the decoded firmware when it is loaded,
      and the previous contents otherwise. */
  function RomAfter(previous: seq<nat>, cpu: Cpu, plan: Plan, doBuild: bool, doInit: bool,
                    execute: Plan -> Result<Products, BuildError>): (rom: seq<nat>)
    ensures rom != previous ==> doBuild && doInit && execute(plan).Success?
                                && FirmwarePath in execute(plan).value.files
    ensures !doBuild || !doInit ==> rom == previous
  {
    if doBuild && doInit && execute(plan).Success? && FirmwarePath in execute(plan).value.files
    then DecodeFirmware(execute(plan).value.files[FirmwarePath], cpu.dataWidth, cpu.byteOrder)
    else previous
  }

  class CPUSoC {
    /** The SoC's components, with every address and interrupt resolved. */
    const desc: SocView
    /** The initial contents of the ROM peripheral (rom.init). */
    var romInit: seq<nat>

    constructor(desc: SocView, romInit: seq<nat>)
      ensures this.desc == desc && this.romInit == romInit
    {
      this.desc := desc;
      this.romInit := romInit;
    }

    /** CPUSoC.build: plan the BIOS, run the plan when doBuild is set and,
        when doInit is set too, load bios/bios.bin into the ROM. */
    method Build(name: string, litedramDir: string, buildDir: string, doBuild: bool, doInit: bool,
                 execute: Plan -> Result<Products, BuildError>)
      returns (r: Result<BuildOutcome, BuildError>)
      modifies this
      ensures r == Stage(PlanFor(desc, buildDir, name, litedramDir), doBuild, doInit, execute)
      ensures romInit == RomAfter(old(romInit), desc.cpu, PlanFor(desc, buildDir, name, litedramDir),
                                  doBuild, doInit, execute)
    {
      var prepared := Prepare(this, buildDir, name, litedramDir);
      assert prepared.Success?;
      var plan := prepared.value;
      if !doBuild {
        return Success(Planned(plan));
      }
      var executed := execute(plan);
      if executed.Failure? {
        return Failure(executed.error);
      }
      var products := executed.value;
      if !doInit {
        return Success(Built(products));
      }
      if FirmwarePath !in products.files {
        return Failure(ArtifactNotFound(FirmwarePath));
      }
      var bios := ReadFirmware(products.files[FirmwarePath], desc.cpu.dataWidth, desc.cpu.byteOrder);
      romInit := bios;
      r := Success(Initialized);
    }
  }

  // ---------------------------------------------------------------------
  // The stages of build

  /** What build returns for each pair of flags: the plan exactly when
      nothing is built, the products of the build exactly when it
      succeeds and nothing is loaded, and None exactly when the firmware
      was found and loaded; a missing firmware file is ArtifactNotFound. */
  lemma StageByFlags(plan: Plan, doBuild: bool, doInit: bool, execute: Plan -> Result<Products, BuildError>)
    ensures Stage(plan, doBuild, doInit, execute) == Success(Planned(plan)) <==> !doBuild
    ensures Stage(plan, doBuild, doInit, execute).Success? && Stage(plan, doBuild, doInit, execute).value.Built?
        <==> doBuild && !doInit && execute(plan).Success?
    ensures Stage(plan, doBuild, doInit, execute) == Success(Initialized)
        <==> doBuild && doInit && execute(plan).Success? && FirmwarePath in execute(plan).value.files
    ensures Stage(plan, doBuild, doInit, execute).Failure? ==>
      doBuild && (execute(plan).Failure? || (doInit && FirmwarePath !in execute(plan).value.files))
    ensures doBuild && execute(plan).Failure? ==>
      Stage(plan, doBuild, doInit, execute) == Failure(execute(plan).error)
    ensures doBuild && !doInit && execute(plan).Success? ==>
      Stage(plan, doBuild, doInit, execute) == Success(Built(execute(plan).value))
    ensures doBuild && doInit && execute(plan).Success? && FirmwarePath !in execute(plan).value.files ==>
      Stage(plan, doBuild, doInit, execute) == Failure(ArtifactNotFound(FirmwarePath))
  {
  }

  /** Nothing but a successful load changes the ROM; a successful load puts
      the decoded firmware there. */
  lemma RomChangesOnlyOnLoad(previous: seq<nat>, cpu: Cpu, plan: Plan, doBuild: bool, doInit: bool,
                             execute: Plan -> Result<Products, BuildError>)
    ensures RomAfter(previous, cpu, plan, doBuild, doInit, execute) != previous ==>
      Stage(plan, doBuild, doInit, execute) == Success(Initialized)
    ensures Stage(plan, doBuild, doInit, execute) != Success(Initialized) ==>
      RomAfter(previous, cpu, plan, doBuild, doInit, execute) == previous
    ensures Stage(plan, doBuild, doInit, execute) == Success(Initialized) ==>
      RomAfter(previous, cpu, plan, doBuild, doInit, execute)
      == DecodeFirmware(execute(plan).value.files[FirmwarePath], cpu.dataWidth, cpu.byteOrder)
  {
    StageByFlags(plan, doBuild, doInit, execute);
  }

  /** After a load, the ROM holds one word per data_width // 8 bytes of the
      firmware, each fitting the CPU's data width, and when the image is a
      whole number of words, writing them back gives the image. */
  lemma RomHoldsFirmware(previous: seq<nat>, cpu: Cpu, plan: Plan, doBuild: bool, doInit: bool,
                         execute: Plan -> Result<Products, BuildError>)
    requires Stage(plan, doBuild, doInit, execute) == Success(Initialized)
    requires cpu.dataWidth >= 8
    ensures var image := execute(plan).value.files[FirmwarePath];
      var rom := RomAfter(previous, cpu, plan, doBuild, doInit, execute);
      var size := cpu.dataWidth / 8;
      |rom| == (|image| + size - 1) / size
      && (forall w :: w in rom ==> w < Pow2(cpu.dataWidth))
      && (|image| % size == 0 ==> EncodeWords(rom, size, cpu.byteOrder) == image)
  {
    var image := execute(plan).value.files[FirmwarePath];
    var size := cpu.dataWidth / 8;
    assert RomAfter(previous, cpu, plan, doBuild, doInit, execute) == DecodeWords(image, size, cpu.byteOrder) by {
      RomChangesOnlyOnLoad(previous, cpu, plan, doBuild, doInit, execute);
    }
    WordCount(image, size, cpu.byteOrder);
    WordsFitDataWidth(image, cpu.dataWidth, cpu.byteOrder);
    if |image| % size == 0 {
      EncodeDecode(image, size, cpu.byteOrder);
    }
  }

  // ---------------------------------------------------------------------
  // The planned files agree with each other

  /** The config and the header give the timer the same address. */
  lemma PlanAgreesOnTimer(soc: SocView, buildDir: string, name: string, litedramDir: string)
    ensures var files := PlanFor(soc, buildDir, name, litedramDir).files;
      ReadHex(files[0].lines, "CONFIG_TIMER_START") == Some(soc.timerAddr)
      && ReadHex(files[1].lines, "LX_CONFIG_TIMER_START") == Some(soc.timerAddr)
  {
    TimerReadsBack(soc);
    HeaderTimerStart(soc);
  }

  /** The config enables the SDRAM exactly when the header defines its
      address, and both give the same address and core size. */
  lemma PlanAgreesOnSdram(soc: SocView, buildDir: string, name: string, litedramDir: string)
    ensures var files := PlanFor(soc, buildDir, name, litedramDir).files;
      (Bindings(files[0].lines, "CONFIG_WITH_SDRAM") == ["y"]
       <==> Bindings(files[1].lines, "LX_CONFIG_SDRAM_START") != [])
    ensures var files := PlanFor(soc, buildDir, name, litedramDir).files;
      soc.sdram.Some? ==>
        ReadHex(files[0].lines, "CONFIG_SDRAM_START") == ReadHexUL(files[1].lines, "LX_CONFIG_SDRAM_START")
        && ReadHex(files[0].lines, "CONFIG_SDRAM_SIZE") == ReadHexUL(files[1].lines, "LX_CONFIG_SDRAM_SIZE")
  {
    SdramSwitch(soc);
    if soc.sdram.Some? {
      HeaderSdramRegion(soc);
    } else {
      HeaderWithoutSdram(soc, "LX_CONFIG_SDRAM_START");
    }
  }

  /** prepare accepts every CPUSoC, whatever its contents. */
  lemma PrepareAcceptsCpuSoc(soc: CPUSoC, buildDir: string, name: string, litedramDir: string)
    ensures Prepare(soc, buildDir, name, litedramDir) == Success(PlanFor(soc.desc, buildDir, name, litedramDir))
  {
  }
}
