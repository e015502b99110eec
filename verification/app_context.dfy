/** The run's configuration and its fault list.

    `AppContext` is the mutable object the parser fills in; `Config` is the
    value of its fields at one moment, which the specifications talk about.
    Faults are collected instead of thrown: `Faulted` becomes true with the
    first one. */
module AppContexts {
  import opened Wrappers
  import opened Constants

  datatype Config = Config(
    showHelp: bool,
    whatIf: bool,
    defaultMinResX: real,
    defaultMinResY: real,
    widthCm: Option<real>,
    heightCm: Option<real>,
    fileNameSuffix: Option<string>,
    searchPatterns: Option<string>,
    faulted: bool,
    faults: seq<string>)
  {
    /** Faulted is true exactly when some fault was recorded. */
    predicate Consistent() {
      faulted == (|faults| > 0)
    }

    function AddFault(message: string): Config {
      this.(faulted := true, faults := faults + [message])
    }

    function AddFaults(messages: seq<string>): Config {
      if messages == [] then this else this.(faulted := true, faults := faults + messages)
    }
  }

  /** The state of a freshly constructed AppContext. */
  function Fresh(): Config {
    Config(false, false, DefaultMinResolution, DefaultMinResolution,
           None, None, None, None, false, [])
  }

  const NoDimensionFault: string := "At least the cropped Width or Height must be specified."
  const MinResolutionFault: string := "The minimum resolution is 72dpi."

  function InvalidOptionFault(arg: string): string {
    "Invalid option specified - \"" + arg + "\""
  }

  /** `message` ends by quoting `token`. */
  predicate Quotes(message: string, token: string) {
    |token| + 2 <= |message| && message[|message| - |token| - 2..] == "\"" + token + "\""
  }

  /** The faults Verify appends: one when no target dimension is given, one when
      either minimum resolution is below the allowed minimum, in that order. */
  function VerifyFaults(c: Config): (r: seq<string>)
    ensures |r| == (if c.widthCm.None? && c.heightCm.None? then 1 else 0)
                   + (if c.defaultMinResX < MinAllowedResolution || c.defaultMinResY < MinAllowedResolution then 1 else 0)
    ensures NoDimensionFault in r ==> r[0] == NoDimensionFault
    ensures NoDimensionFault in r <==> c.widthCm.None? && c.heightCm.None?
    ensures MinResolutionFault in r <==>
              c.defaultMinResX < MinAllowedResolution || c.defaultMinResY < MinAllowedResolution
    ensures forall m | m in r :: m == NoDimensionFault || m == MinResolutionFault
  {
    (if c.widthCm.None? && c.heightCm.None? then [NoDimensionFault] else [])
    + (if c.defaultMinResX < MinAllowedResolution || c.defaultMinResY < MinAllowedResolution
       then [MinResolutionFault] else [])
  }

  class AppContext {
    var ShowHelp: bool
    var WhatIf: bool
    var DefaultMinResX: real
    var DefaultMinResY: real
    var WidthCm: Option<real>
    var HeightCm: Option<real>
    var FileNameSuffix: Option<string>
    var SearchPatterns: Option<string>
    var Faulted: bool
    var Faults: seq<string>

    function Value(): Config
      reads this
    {
      Config(ShowHelp, WhatIf, DefaultMinResX, DefaultMinResY, WidthCm, HeightCm,
             FileNameSuffix, SearchPatterns, Faulted, Faults)
    }

    ghost predicate Valid()
      reads this
    {
      Value().Consistent()
    }

    constructor ()
      ensures Value() == Fresh() && Valid()
    {
      ShowHelp, WhatIf := false, false;
      WidthCm, HeightCm := None, None;
      FileNameSuffix, SearchPatterns := None, None;
      Faulted := false;
      Faults := [];
      DefaultMinResX := DefaultMinResolution;
      DefaultMinResY := DefaultMinResolution;
    }

    /** Records one fault at the end of the list; whatever the state before,
        the context is consistent afterwards. */
    method AddFault(message: string)
      modifies this
      ensures Value() == old(Value()).AddFault(message)
      ensures Faulted && Faults == old(Faults) + [message] && Valid()
    {
      Faulted := true;
      Faults := Faults + [message];
    }

    method AddInvalidArgFault(arg: string)
      modifies this
      ensures Value() == old(Value()).AddFault(InvalidOptionFault(arg))
      ensures Quotes(Faults[|Faults| - 1], arg)
    {
      AddFault(InvalidOptionFault(arg));
    }

    /** The exception is represented by its message. */
    method AddExceptionFault(message: string)
      modifies this
      ensures Value() == old(Value()).AddFault(message)
    {
      AddFault(message);
    }

    /** Post-parse validation: appends VerifyFaults, never removes a fault. */
    method Verify()
      modifies this
      ensures Value() == old(Value()).AddFaults(VerifyFaults(old(Value())))
      ensures old(Valid()) ==> Valid()
    {
      if WidthCm.None? && HeightCm.None? {
        AddFault(NoDimensionFault);
      }
      if DefaultMinResX < MinAllowedResolution || DefaultMinResY < MinAllowedResolution {
        AddFault(MinResolutionFault);
      }
    }
  }

  // ---------------------------------------------------------------------------

  lemma AddFaultKeepsEarlierFaults(c: Config, message: string)
    ensures c.AddFault(message).Consistent()
    ensures c.AddFault(message).faults[..|c.faults|] == c.faults
    ensures c.AddFault(message).faults[|c.faults|] == message
  {
  }

  /** A fresh configuration is consistent and passes the resolution check, so
      Verify on it reports only the missing dimension. */
  lemma FreshVerifiesToOneFault()
    ensures Fresh().Consistent()
    ensures VerifyFaults(Fresh()) == [NoDimensionFault]
  {
  }
}
