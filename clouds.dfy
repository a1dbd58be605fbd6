/** Cloud cover as reported in an observation's `cloudLayers`
    (Observations/Model/CloudLayers.swift). */
module Clouds {
  import opened Wrappers

  /** `CloudAmount`, a `String`-backed enum. */
  datatype CloudAmount =
    | Clear               // 0 eighths of sky covered
    | Few                 // 1-2 eighths
    | Scattered           // 3-4 eighths
    | Broken              // 5-7 eighths
    | Overcast            // sky completely covered
    | TotalObscuration    // sky not visible (fog, smoke, ...)
    | PartialObscuration  // sky partially not visible

  /** The code each case stands for: `rawValue`. */
  function RawValue(amount: CloudAmount): string
  {
    match amount
    case Clear => "CLR"
    case Few => "FEW"
    case Scattered => "SCT"
    case Broken => "BKN"
    case Overcast => "OVC"
    case TotalObscuration => "W0X"
    case PartialObscuration => "-X"
  }

  /** `CloudAmount(rawValue:)`: the case whose code is exactly `code`. A
      string decodes exactly when it is one of the seven codes, and then to the
      case that has that code. */
  function FromRawValue(code: string): (r: Option<CloudAmount>)
    ensures r.Some? <==> code in Codes
    ensures r.Some? ==> RawValue(r.value) == code
  {
    if code == "CLR" then Some(Clear)
    else if code == "FEW" then Some(Few)
    else if code == "SCT" then Some(Scattered)
    else if code == "BKN" then Some(Broken)
    else if code == "OVC" then Some(Overcast)
    else if code == "W0X" then Some(TotalObscuration)
    else if code == "-X" then Some(PartialObscuration)
    else None
  }

  /** The seven codes of the table. */
  const Codes: set<string> := {"CLR", "FEW", "SCT", "BKN", "OVC", "W0X", "-X"}

  /** `CloudLayer`: one layer holds exactly one amount. */
  datatype CloudLayer = CloudLayer(cloudAmount: CloudAmount)

  /** Every case has a code from the table, and no two cases share one. */
  lemma RawValueInjective(a: CloudAmount, b: CloudAmount)
    ensures RawValue(a) in Codes
    ensures RawValue(a) == RawValue(b) ==> a == b
  {
  }

  /** Decoding a case's code gives the case back. */
  lemma RoundTrip(amount: CloudAmount)
    ensures FromRawValue(RawValue(amount)) == Some(amount)
  {
  }

  /** Matching is case-sensitive and exact. */
  lemma CaseSensitive()
    ensures FromRawValue("clr") == None && FromRawValue("Ovc") == None
    ensures FromRawValue("CLR ") == None && FromRawValue("X") == None
  {
  }
}
