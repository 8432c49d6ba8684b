/** The fixed numbers and option lists of the controller (logic/Constants.py). */
module Constants {

  /** Frequency unit strings of the keypad. */
  const MHz: string := "MHz"
  const KHz: string := "KHz"
  const Hz: string := "Hz"

  /** Output voltage options, in the order the format dialog lists them. */
  const VoltOptions: seq<string> := ["1.8 V", "2.5 V", "3.3 V"]

  /** LVCMOS termination options per output voltage (1.8 V, 2.5 V, 3.3 V). */
  const TermOptions: seq<seq<string>> := [
    ["31 \U{03A9}"],
    ["24 \U{03A9}", "35 \U{03A9}", "43 \U{03A9}"],
    ["22 \U{03A9}", "30 \U{03A9}", "38 \U{03A9}"]
  ]

  /** Frequency limits of the inputs and outputs, in Hz. */
  const InputFMin: nat := 8_000
  const InputFMaxDiff: nat := 750_000_000
  const InputFMaxCmos: nat := 250_000_000
  const OutputFMin: nat := 100
  const OutputFMaxDiff: nat := 720_000_000
  const OutputFMaxCmos: nat := 250_000_000

  /** The 54 MHz crystal on XA/XB. */
  const ExternalRefFreq: nat := 54_000_000

  /** Highest VCO frequency, 14 GHz. */
  const MaxPllF: nat := 14_000_000_000

  /** Register widths of the dividers, in bits. */
  const NnMaxPwr: nat := 44
  const NdMaxPwr: nat := 32
  const MnMaxPwr: nat := 56
  const MdMaxPwr: nat := 32
  const PnMaxPwr: nat := 48
  const PdMaxPwr: nat := 32
  const RMaxPwr: nat := 25
  /** Above 2^12 the N divider alone is not used; the R divider takes over. */
  const NnMaxValPwr: nat := 12

  /** Allowed distance of fvco / (2 f) from an integer. */
  const FvcoToMultiError: real := 0.000001

  /** Remainder below which the input-frequency gcd search stops. */
  const GcdInputError: real := 0.001

  /** Bounds of the phase detector frequency, in Hz. */
  const FPfdMax: nat := 2_000_000
  const FPfdMin: nat := 20_000
}
