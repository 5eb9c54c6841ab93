/**
 * `RISCPISubtarget`: the subtarget descriptor built from a target triple, a
 * CPU name and a feature string. Feature parsing is the build-time generated
 * `ParseSubtargetFeatures`; the model takes it as a deterministic function of
 * the CPU name and the feature string, supplied when the subtarget is built.
 */
module SubtargetInfo {
  import opened Wrappers

  /** The feature bits the generated parser sets, named by feature. */
  datatype FeatureBits = FeatureBits(enabled: set<string>)

  /** The generated `ParseSubtargetFeatures`, as a function of (CPU name, feature string). */
  type FeatureParser = (string, string) -> FeatureBits

  /** One invocation of `ParseSubtargetFeatures`, with the arguments it received. */
  datatype ParseCall = ParseCall(cpuName: string, featureString: string)

  /** `RISCPIInstrInfo`, reduced to the subtarget configuration it was built from. */
  datatype InstrInfo = InstrInfo(builtFrom: Option<FeatureBits>)

  /** The CPU name handed to the parser: an empty name stands for `"generic"`. */
  function EffectiveCPUName(cpu: string): (r: string)
    ensures r != ""
    ensures cpu != "" ==> r == cpu
    ensures cpu == "" ==> r == "generic"
  {
    if cpu == "" then "generic" else cpu
  }

  /** Two CPU names reach the parser as the same name exactly when they are equal or are `""` and `"generic"`. */
  lemma SameEffectiveCPUName(c1: string, c2: string)
    ensures EffectiveCPUName(c1) == EffectiveCPUName(c2)
        <==> c1 == c2 || (c1 == "" && c2 == "generic") || (c1 == "generic" && c2 == "")
  {
  }

  /** For every parser and feature string, CPU `""` parses to the same feature bits as CPU `"generic"`. */
  lemma EmptyCPUParsesAsGeneric(parser: FeatureParser, fs: string)
    ensures parser(EffectiveCPUName(""), fs) == parser(EffectiveCPUName("generic"), fs)
  {
  }

  class Subtarget {
    /** The generated feature parser this subtarget was compiled with. */
    const parser: FeatureParser

    // What the base `RISCPIGenSubtargetInfo` keeps: the raw triple, CPU and feature string.
    var triple: string
    var cpu: string
    var featureString: string

    /** The parsed configuration; `None` until `ParseSubtargetFeatures` has run. */
    var features: Option<FeatureBits>
    /** The instruction-info member; `None` until it has been constructed. */
    var instrInfo: Option<InstrInfo>

    /** Every call of `ParseSubtargetFeatures` on this object, in order. */
    ghost var parseCalls: seq<ParseCall>

    /**
     * `RISCPISubtarget(TT, CPU, FS, TM)`: the base keeps the raw `CPU`, the
     * features are parsed exactly once with the effective CPU name and the
     * unmodified `FS`, and the instruction info is built from the parsed configuration.
     */
    constructor (tt: string, cpu: string, fs: string, parser: FeatureParser)
      ensures this.parser == parser
      ensures triple == tt && this.cpu == cpu && featureString == fs
      ensures parseCalls == [ParseCall(EffectiveCPUName(cpu), fs)]
      ensures features == Some(parser(EffectiveCPUName(cpu), fs))
      ensures instrInfo == Some(InstrInfo(features))
    {
      this.parser := parser;
      triple, this.cpu, featureString := tt, cpu, fs;
      features, instrInfo := None, None;
      parseCalls := [];
      new;
      var self := InitializeSubtargetDependencies(tt, cpu, fs);
      instrInfo := Some(InstrInfo(self.features));
    }

    /** The generated `ParseSubtargetFeatures`: sets the feature bits for `cpuName` and `fs`. */
    method ParseSubtargetFeatures(cpuName: string, fs: string)
      modifies this`features, this`parseCalls
      ensures features == Some(parser(cpuName, fs))
      ensures parseCalls == old(parseCalls) + [ParseCall(cpuName, fs)]
    {
      features := Some(parser(cpuName, fs));
      parseCalls := parseCalls + [ParseCall(cpuName, fs)];
    }

    /**
     * `initializeSubtargetDependencies`: defaults an empty CPU name to
     * `"generic"`, parses the features once, and returns this same object.
     */
    method InitializeSubtargetDependencies(tt: string, cpu: string, fs: string) returns (self: Subtarget)
      modifies this`features, this`parseCalls
      ensures self == this
      ensures features == Some(parser(EffectiveCPUName(cpu), fs))
      ensures parseCalls == old(parseCalls) + [ParseCall(EffectiveCPUName(cpu), fs)]
    {
      var cpuName := cpu;
      if cpuName == "" {
        cpuName := "generic";
      }
      ParseSubtargetFeatures(cpuName, fs);
      self := this;
    }
  }

  /**
   * Building with CPU `""` and with CPU `"generic"` from the same feature
   * string hands the parser identical arguments, so the parsed configuration
   * and the instruction info agree, while the CPU strings the base keeps differ.
   */
  method EmptyAndGenericCPUAgree(tt: string, fs: string, parser: FeatureParser)
    returns (e: Subtarget, g: Subtarget)
    ensures e.cpu == "" && g.cpu == "generic"
    ensures e.parseCalls == g.parseCalls
    ensures e.features == g.features && e.instrInfo == g.instrInfo
    ensures e.cpu != g.cpu
  {
    e := new Subtarget(tt, "", fs, parser);
    g := new Subtarget(tt, "generic", fs, parser);
  }
}
