/**
 * The RadioSHARK controller object (`Shark`): the FM band constants, the tuned
 * frequency and volume whose observers drive the hardware and the audio output,
 * the command hand-off to the device, and the choice of the capture device.
 *
 * The device's C bridge is not part of this model: every argument vector handed
 * to it is appended to the ghost log `commands` instead.
 */
module Tuner {
  import opened Wrappers
  import opened Measurements
  import NumberFormat

  // The band constants of `Shark`, and the frequency its initializer assigns.
  const BandMinimum := Measurement(88_100_000, Megahertz)
  const BandMaximum := Measurement(107_900_000, Megahertz)
  const BandStep := Measurement(200_000, Kilohertz)
  const InitialFrequency := Measurement(88_500_000, Megahertz)

  /** The band constants are ordered, and the initial frequency is a channel of the band. */
  lemma BandConstants()
    ensures Less(BandMinimum, InitialFrequency) && Less(InitialFrequency, BandMaximum)
    ensures BandStep.hertz > 0
    ensures (InitialFrequency.hertz - BandMinimum.hertz) % BandStep.hertz == 0
    ensures (BandMaximum.hertz - BandMinimum.hertz) % BandStep.hertz == 0
  {
  }

  /** An audio capture device as discovery reports it. */
  datatype CaptureDevice = CaptureDevice(
    modelID: string,
    // whether locking it for configuration and opening it as a capture input succeed
    acceptsConfiguration: bool)

  /** The model IDs the RadioSHARK reports, compared as sequences of Unicode scalar values. */
  predicate IsRadioSharkModel(modelID: string) {
    "RadioSHARK" <= modelID || "radioSHARK" <= modelID
  }

  /** The index of the first RadioSHARK among the discovered devices, if any. */
  function FirstRadioShark(devices: seq<CaptureDevice>): (r: Option<nat>)
    ensures r.Some? ==> r.value < |devices| && IsRadioSharkModel(devices[r.value].modelID)
    ensures r.Some? ==> forall j :: 0 <= j < r.value ==> !IsRadioSharkModel(devices[j].modelID)
    ensures r.None? <==> forall j :: 0 <= j < |devices| ==> !IsRadioSharkModel(devices[j].modelID)
  {
    if devices == [] then None
    else if IsRadioSharkModel(devices[0].modelID) then Some(0)
    else
      match FirstRadioShark(devices[1..])
      case None => None
      case Some(i) => Some(i + 1)
  }

  /** The argument vector that tunes the device to `f`: "-f" and the frequency in megahertz. */
  function FrequencyArgs(f: Measurement): (argv: seq<string>)
    ensures |argv| == 2 && argv[0] == "-f"
    ensures NumberFormat.ParseMegahertz(argv[1]) == Some(NumberFormat.RoundedTenths(f.hertz) * NumberFormat.HertzPerTenth)
  {
    NumberFormat.FormatParseRoundTrip(f.hertz);
    ["-f", NumberFormat.FormatMegahertz(f.hertz)]
  }

  /** The initial frequency is sent as "88.5". */
  lemma InitialFrequencyArgs()
    ensures FrequencyArgs(InitialFrequency) == ["-f", "88.5"]
  {
    assert NumberFormat.RoundedTenths(88_500_000) == 885;
    assert NumberFormat.Decimal(88) == "88" by {
      assert NumberFormat.Decimal(8) == "8";
    }
    assert NumberFormat.DigitChar(5) == '5';
    assert NumberFormat.FormatMegahertz(88_500_000) == "" + "88" + "." + ['5'];
    assert "" + "88" + "." + ['5'] == "88.5";
    assert FrequencyArgs(InitialFrequency) == ["-f", NumberFormat.FormatMegahertz(88_500_000)];
  }

  /** What the device receives for `argv`: an empty program name in front, then `argv` in order. */
  function CommandLine(argv: seq<string>): (args: seq<string>)
    ensures |args| == |argv| + 1
    ensures args[0] == ""
    ensures forall i :: 0 <= i < |argv| ==> args[i + 1] == argv[i]
  {
    [""] + argv
  }

  /** The audio preview output that plays the captured radio audio. */
  class AudioPreviewOutput {
    var volume: real

    constructor (volume: real)
      ensures this.volume == volume
    {
      this.volume := volume;
    }
  }

  class Shark {
    /** Running inside a design-time preview: no hardware, no audio. */
    const isPreview: bool
    /** Whether a capture session was created. */
    var hasSession: bool
    var output: AudioPreviewOutput?
    var frequency: Measurement
    var volume: real
    /** Every argument vector handed to the device, argv[0] included. */
    ghost var commands: seq<seq<string>>

    ghost predicate Valid()
      reads this, output
    {
      (isPreview ==> !hasSession && output == null && commands == []) &&
      (output != null ==> output.volume == volume)
    }

    /**
     * `init`: the first assignment of `frequency` does not fire its observer, so
     * nothing is sent. Outside preview it creates the session and connects the
     * first RadioSHARK, if one accepts configuration, to a new audio output.
     */
    constructor (isPreview: bool, devices: seq<CaptureDevice>)
      ensures Valid()
      ensures this.isPreview == isPreview
      ensures frequency == InitialFrequency && volume == 1.0 && commands == []
      ensures hasSession == !isPreview
      ensures output != null <==>
        !isPreview && FirstRadioShark(devices).Some? &&
        devices[FirstRadioShark(devices).value].acceptsConfiguration
      ensures output != null ==> fresh(output) && output.volume == 1.0
    {
      this.isPreview := isPreview;
      frequency := InitialFrequency;
      volume := 1.0;
      commands := [];
      hasSession := false;
      output := null;
      new;
      if !isPreview {
        hasSession := true;
        InitAudioPlaythrough(devices);
      }
    }

    /** `sendCommand`: outside preview, hands `CommandLine(argv)` to the device. */
    method SendCommand(argv: seq<string>)
      requires Valid()
      modifies this`commands
      ensures Valid()
      ensures commands == old(commands) + (if isPreview then [] else [CommandLine(argv)])
    {
      if isPreview {
        return;
      }
      commands := commands + [CommandLine(argv)];
    }

    /** Assigning `frequency`: its observer sends `FrequencyArgs` outside preview. */
    method SetFrequency(f: Measurement)
      requires Valid()
      modifies this`frequency, this`commands
      ensures Valid()
      ensures frequency == f
      ensures commands == old(commands) + (if isPreview then [] else [CommandLine(FrequencyArgs(f))])
    {
      frequency := f;
      if !isPreview {
        SendCommand(FrequencyArgs(frequency));
      }
    }

    /** Assigning `volume`: its observer mirrors it to the audio output outside preview. */
    method SetVolume(v: real)
      requires Valid()
      modifies this`volume, output
      ensures Valid()
      ensures volume == v
      ensures output != null ==> output.volume == v
    {
      volume := v;
      if !isPreview && output != null {
        output.volume := volume;
      }
    }

    /**
     * `initAudioPlaythrough`: picks the first RadioSHARK and, when it can be
     * configured, attaches a new audio output at the current volume.
     */
    method InitAudioPlaythrough(devices: seq<CaptureDevice>)
      requires Valid() && output == null
      modifies this`output
      ensures Valid()
      ensures output != null <==>
        !isPreview && hasSession && FirstRadioShark(devices).Some? &&
        devices[FirstRadioShark(devices).value].acceptsConfiguration
      ensures output != null ==> fresh(output) && output.volume == volume
    {
      if isPreview || !hasSession {
        return;
      }
      var found := FirstRadioShark(devices);
      if found.None? {
        return;
      }
      var shark := devices[found.value];
      if !shark.acceptsConfiguration {
        return;
      }
      output := new AudioPreviewOutput(volume);
    }
  }
}
