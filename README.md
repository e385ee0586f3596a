# Sharky: a verified model of the RadioSHARK FM controller

Sharky is a macOS app that drives a RadioSHARK USB tuner on the FM band. This
project models its core in Dafny:

- **`Tuner`** (`Sharky/Shark.swift`): the `Shark` object. It holds the band
  constants (88.1 MHz to 107.9 MHz in 200 kHz steps), the tuned `frequency` and
  the `volume`. Assigning the frequency sends the device the argument vector
  `["-f", "<MHz with one decimal>"]`. `sendCommand` puts an empty `argv[0]` in
  front of that vector. Assigning the volume sets the gain of the audio output.
  The capture device is the first one whose model ID starts with `RadioSHARK` or
  `radioSHARK`. In preview mode nothing is sent and no audio is set up. The
  device's C bridge is not modelled. Each vector handed to it is appended to a
  ghost log, `commands`, instead.
- **`ContentView`** (`Sharky/ContentView.swift`): the up and down buttons, the
  frequency slider's hertz binding and range, and the unit-preserving `+=` and
  `-=` on measurements.
- **`Ruler`** (`Sharky/RulerView.swift`): the values visited by the tick-drawing
  loop, each tick's major/minor class, and its label.
- **`Measurements`**, **`NumberFormat`** and **`Wrappers`** are small models of
  the Foundation facilities the core relies on:
  - `Measurement<UnitFrequency>` is held as whole hertz plus a display unit.
  - Numbers are formatted with one fractional digit.
  - `Option` stands in for Swift optionals.

All frequencies are integers in hertz. Volume is a `real`.

The program's "preview mode" is taken from an environment variable. Here it is
a constructor parameter. The list of discovered audio devices is a parameter
too. Each device carries a flag saying whether configuring it for capture
succeeds.

The ruler works on `Double`s in the source. With whole-hertz inputs, as in the
ruler's own preview, that arithmetic is exact, so it is modelled on `int`.
Swift's `truncatingRemainder` is written out as a remainder that takes the sign
of the dividend. Dividing by zero gives NaN, and `NaN < 1` is false, so such a
tick is neither major nor labelled. For the same reason a zero `minorTick`
draws no ticks. A result of the model: when `majorTick` and the label spacing
(`labelTick`, or `majorTick` when it is absent) are non-zero, every tick below
zero is major and labelled, because its remainder is never positive
(`Ruler.NegativeTicksMajor`).

## Model

| member | source | states |
|---|---|---|
| Tuner.BandConstants | Sharky/Shark.swift:18-20 | the minimum 88.1 MHz is below the initial 88.5 MHz, which is below the maximum 107.9 MHz; the step is positive; the initial frequency and the maximum are whole steps above the minimum |
| Tuner.FirstRadioShark | Sharky/Shark.swift:68-69 | returns the index of the first device whose model ID starts with "RadioSHARK" or "radioSHARK"; no earlier device matches; returns none exactly when no device matches |
| Tuner.FrequencyArgs | Sharky/Shark.swift:21-27 | the vector sent on a frequency change has two elements, "-f" and a text that parses back to the frequency rounded to 0.1 MHz |
| Tuner.InitialFrequencyArgs | Sharky/Shark.swift:24 | 88.5 MHz is encoded as ["-f", "88.5"]; the initializer itself sends nothing (see Tuner.Shark.constructor) |
| Tuner.CommandLine | Sharky/Shark.swift:56-60 | the device gets argc = argv.count + 1 strings: "" first, then argv in order |
| Tuner.Shark.constructor | Sharky/Shark.swift:37-45 | a new Shark is at 88.5 MHz with volume 1 and has sent no command; outside preview it has a session, and it has an audio output at volume 1 exactly when the first RadioSHARK accepts configuration |
| Tuner.Shark.SendCommand | Sharky/Shark.swift:53-62 | outside preview, appends CommandLine(argv) to the commands sent; in preview, sends nothing |
| Tuner.Shark.SetFrequency | Sharky/Shark.swift:21-27 | sets the frequency; outside preview, sends exactly one command, CommandLine(FrequencyArgs(f)); volume and output are untouched |
| Tuner.Shark.SetVolume | Sharky/Shark.swift:29-35 | sets the volume; the output's volume then equals it; frequency and commands are untouched |
| Tuner.Shark.InitAudioPlaythrough | Sharky/Shark.swift:65-92 | creates an audio output at the current volume exactly when not in preview, a session exists, and the first RadioSHARK accepts configuration; otherwise adds nothing |
| NumberFormat.RoundedTenths | Sharky/Shark.swift:24 | the tenth of a megahertz nearest the frequency, with ties going to even; exact on the 100 kHz grid |
| NumberFormat.FormatMegahertz | Sharky/Shark.swift:24 | the text is an optional "-" (exactly when the rounded value is negative), whole megahertz as at least one digit with no leading zero, ".", and one digit |
| NumberFormat.FormatParseRoundTrip | Sharky/Shark.swift:24 | parsing the formatted megahertz text gives back the frequency rounded to 0.1 MHz |
| NumberFormat.FormatExactOnGrid | Sharky/Shark.swift:24 | on the 100 kHz grid the text is exact, and two frequencies with the same text are equal |
| ContentView.AddAssign | Sharky/ContentView.swift:198-200 | `+=` keeps the left operand's unit, and the new quantity in hertz is the sum of the two |
| ContentView.SubtractAssign | Sharky/ContentView.swift:202-204 | `-=` keeps the left operand's unit, and the new quantity in hertz is the difference |
| ContentView.AddSubtractInverse | Sharky/ContentView.swift:198-204 | `-=` after `+=` of the same amount restores the measurement, unit included, and the other way round |
| ContentView.HertzGet | Sharky/ContentView.swift:191 | the getter returns the frequency's quantity in hertz |
| ContentView.HertzSet | Sharky/ContentView.swift:192 | the setter makes a measurement in hertz whose value is x |
| ContentView.HertzBindingRoundTrip | Sharky/ContentView.swift:189-194 | after set(x) the binding's get returns x hertz; setting what was read keeps the quantity |
| ContentView.FrequencySlider | Sharky/ContentView.swift:69-71 | the slider runs from bandMinimum to bandMaximum in steps of bandStep, all in hertz, and the range is a whole number of steps |
| ContentView.TuningStaysOnDial | Sharky/ContentView.swift:34-58 | from a channel of the band (88.1 MHz + k × 200 kHz, within the bounds), up and down both land on a channel of the band |
| ContentView.TuningAtBounds | Sharky/ContentView.swift:34-58 | up does nothing exactly at or above the maximum and otherwise adds exactly 200 kHz; down does nothing exactly at or below the minimum and otherwise subtracts exactly 200 kHz |
| ContentView.TuningRoundTrip | Sharky/ContentView.swift:34-58 | up then down restores any frequency in [min, max); down then up restores any in (min, max] |
| ContentView.RepeatedTuneUpSaturates | Sharky/ContentView.swift:34-36 | pressing up n times from a channel climbs n steps, stopping at the band maximum |
| ContentView.ChannelsReachable | Sharky/ContentView.swift:34-36 | every channel of the band is reached from the minimum by pressing up |
| ContentView.TuneUp | Sharky/ContentView.swift:34-36 | the frequency becomes TunedUp of the old one and keeps its unit; outside preview, one command with the new frequency is sent exactly when it was below the maximum |
| ContentView.TuneDown | Sharky/ContentView.swift:56-58 | the frequency becomes TunedDown of the old one and keeps its unit; outside preview, one command is sent exactly when it was above the minimum |
| ContentView.SlideFrequency | Sharky/ContentView.swift:69 | moving the slider to x sets the frequency to x hertz through the binding, and outside preview sends it |
| Ruler.TruncatingRemainder | Sharky/RulerView.swift:27 | the remainder has the dividend's sign, is smaller in size than the divisor, and is the dividend minus a multiple of the divisor taken toward zero |
| Ruler.FirstTick | Sharky/RulerView.swift:27 | the first value is a multiple of minorTick less than one step from lower; at or below lower when lower ≥ 0, at or above it otherwise |
| Ruler.Ticks | Sharky/RulerView.swift:27-47 | the ticks are the values TickValues visits from FirstTick, in order, each classified by MakeTick; none when minorTick is zero |
| Ruler.TickCount | Sharky/RulerView.swift:27-46 | the number of ticks is ceil((upper − first) / minorTick), or zero when first ≥ upper |
| Ruler.TickValueAt | Sharky/RulerView.swift:28-46 | the i-th tick is first + i × minorTick and below upper, and consecutive ticks are exactly minorTick apart |
| Ruler.MajorAtMultiples | Sharky/RulerView.swift:33-38 | a non-negative tick is major exactly when it is a multiple of majorTick |
| Ruler.LabelledAtMultiples | Sharky/RulerView.swift:41-42 | a non-negative tick has a label exactly when it is a multiple of labelTick (majorTick by default); the label times labelUnit (majorTick by default) is the tick value |
| Ruler.NegativeTicksMajor | Sharky/RulerView.swift:33-42 | when majorTick and labelTick ?? majorTick are non-zero, a negative tick is always major and always labelled |
| Ruler.TickHeightByValue | Sharky/RulerView.swift:22-38 | on a canvas taller than the label row, a tick (built by MakeTick, drawn to TickHeight) reaches the canvas height minus the label height exactly when its value's truncating remainder by majorTick is below 1 (for a non-negative value: a multiple of majorTick), and half of that otherwise |
| Ruler.MajorTallerThanMinor | Sharky/RulerView.swift:22-23 | on a canvas taller than the label row, a minor tick has positive height and a major tick is strictly taller |

## Left out

- The C bridge calls `sharkOpen`, `sharkCommand` and `sharkClose`, and the `strdup`/`free` marshalling of the arguments: these are foreign functions. Sending is modelled as appending to the ghost log `commands`, and opening and closing the device are not modelled.
- AVFoundation plumbing in `initAudioPlaythrough` is not modelled: locking, `canAddInput`/`canAddOutput`, adding the input and output to the session, and `startRunning`. Only the choice of device and whether an output exists are kept.
- The value of `isPreview` comes from the process environment. The list of capture devices comes from device discovery. Both are constructor parameters.
- Floating-point arithmetic of `Measurement` and of the ruler is not modelled. Frequencies are whole hertz, so rounding drift from repeated `+=` of 0.2 MHz in `Double` does not appear.
- Number formatting is modelled only for the `-f` argument. The model assumes "." as the decimal separator and ties-to-even rounding.
- NumberFormat.FormatMegahertz: never writes a grouping separator, whereas the locale-dependent `.number` style would group from 1000 MHz up (for example "1,234.5" in US English). Band frequencies stay below 1000 MHz.
- NumberFormat.FormatMegahertz: writes a negative value that rounds to zero (such as -40 kHz) as "0.0", with no minus sign, where the source's number style writes "-0.0". The program never holds a negative frequency.
- Tuner.IsRadioSharkModel: model IDs are compared as sequences of Unicode scalar values. Swift's `hasPrefix` compares characters under canonical equivalence, so an ID whose tenth character carries a combining mark is accepted here but rejected by the source.
- Ruler.MakeTick: the text of a ruler label is not modelled, and neither is the on-screen frequency text. A label's value is kept as an exact quotient, or as "not finite" when the divisor is zero.
- Ruler.Ticks: a negative `minorTick` is excluded. With such a step the loop runs forever whenever the first value is below `upper`.
- The ruler's pixel positions, fonts, paths and canvas drawing are not modelled.
- SwiftUI layout and styling, button styles, previews, the volume slider's own view, and the app entry point are not modelled. Assigning the volume from the slider is `Tuner.Shark.SetVolume`.
- `@Published`/`ObservableObject` change notification is not modelled. It is a framework mechanism.
