/** The State Department's own country codes (a FIPS 10-4 style scheme) and
    their conversion to ISO 3166-1 alpha-2 codes. */
module CountryCodes {
  import opened Wrappers

  /** A two-letter upper-case code: the shape of an ISO 3166-1 alpha-2 code. */
  predicate IsAlpha2(code: string) {
    |code| == 2 && 'A' <= code[0] <= 'Z' && 'A' <= code[1] <= 'Z'
  }

  /** The conversion table, as a lookup: Some(iso) for a key of the table,
      None for any other code. Every value is an alpha-2 code. Codes the State
      Department shares with ISO are not keys. "BOLIV" is the dedicated key for Bolivia (see ResolveTag). */
  function BtToIso(code: string): (iso: Option<string>)
    ensures iso.Some? ==> IsAlpha2(iso.value)
  {
    match code
    case "AG" => Some("DZ")
    case "AN" => Some("AD")
    case "AV" => Some("AI")
    case "AY" => Some("AQ")
    case "AC" => Some("AG")
    case "AA" => Some("AW")
    case "AS" => Some("AU")
    case "AU" => Some("AT")
    case "AJ" => Some("AZ")
    case "BA" => Some("BH")
    case "BG" => Some("BD")
    case "BO" => Some("BY")
    case "BH" => Some("BZ")
    case "BN" => Some("BJ")
    case "BD" => Some("BM")
    case "BOLIV" => Some("BO")
    case "A1" => Some("BQ")
    case "BK" => Some("BA")
    case "BC" => Some("BW")
    case "VI" => Some("VG")
    case "BX" => Some("BN")
    case "BU" => Some("BG")
    case "UV" => Some("BF")
    case "BM" => Some("MM")
    case "BY" => Some("BI")
    case "CB" => Some("KH")
    case "CJ" => Some("KY")
    case "CT" => Some("CF")
    case "CD" => Some("TD")
    case "CI" => Some("CL")
    case "CH" => Some("CN")
    case "CN" => Some("KM")
    case "CS" => Some("CR")
    case "IV" => Some("CI")
    case "UC" => Some("CW")
    case "EZ" => Some("CZ")
    case "CG" => Some("CD")
    case "DO" => Some("DM")
    case "DR" => Some("DO")
    case "ES" => Some("SV")
    case "EK" => Some("GQ")
    case "EN" => Some("EE")
    case "WZ" => Some("SZ")
    case "A2" => Some("GF")
    case "FP" => Some("PF")
    case "GB" => Some("GA")
    case "GG" => Some("GE")
    case "GM" => Some("DE")
    case "GJ" => Some("GD")
    case "GV" => Some("GN")
    case "HA" => Some("HT")
    case "HO" => Some("HN")
    case "IC" => Some("IS")
    case "IZ" => Some("IQ")
    case "EI" => Some("IE")
    case "JA" => Some("JP")
    case "DA" => Some("DK")
    case "KR" => Some("KI")
    case "KV" => Some("XK")
    case "KU" => Some("KW")
    case "LG" => Some("LV")
    case "LE" => Some("LB")
    case "LT" => Some("LS")
    case "LI" => Some("LR")
    case "LS" => Some("LI")
    case "LH" => Some("LT")
    case "MA" => Some("MG")
    case "MI" => Some("MW")
    case "RM" => Some("MH")
    case "MP" => Some("MU")
    case "MG" => Some("MN")
    case "MJ" => Some("ME")
    case "MH" => Some("MS")
    case "MO" => Some("MA")
    case "WA" => Some("NA")
    case "NU" => Some("NI")
    case "NG" => Some("NE")
    case "NI" => Some("NG")
    case "KN" => Some("KP")
    case "MU" => Some("OM")
    case "PS" => Some("PW")
    case "PM" => Some("PA")
    case "PP" => Some("PG")
    case "PA" => Some("PY")
    case "RP" => Some("PH")
    case "PO" => Some("PT")
    case "CF" => Some("CG")
    case "RS" => Some("RU")
    case "SC" => Some("KN")
    case "ST" => Some("LC")
    case "TP" => Some("ST")
    case "IS" => Some("IL")
    case "SG" => Some("SN")
    case "RI" => Some("RS")
    case "SE" => Some("SC")
    case "SN" => Some("SG")
    case "NN" => Some("SX")
    case "LO" => Some("SK")
    case "BP" => Some("SB")
    case "SF" => Some("ZA")
    case "KS" => Some("KR")
    case "OD" => Some("SS")
    case "SP" => Some("ES")
    case "CE" => Some("LK")
    case "SU" => Some("SD")
    case "NS" => Some("SR")
    case "SW" => Some("SE")
    case "SR" => Some("CH")
    case "TI" => Some("TJ")
    case "BF" => Some("BS")
    case "GA" => Some("GM")
    case "TT" => Some("TL")
    case "TO" => Some("TG")
    case "TN" => Some("TO")
    case "TD" => Some("TT")
    case "TS" => Some("TN")
    case "TU" => Some("TR")
    case "TX" => Some("TM")
    case "TK" => Some("TC")
    case "UP" => Some("UA")
    case "UK" => Some("GB")
    case "NH" => Some("VU")
    case "VM" => Some("VN")
    case "YM" => Some("YE")
    case "ZA" => Some("ZM")
    case "ZI" => Some("ZW")
    case "KO" => Some("KR")
    case _ => None
  }

  /** Looks a code up exactly once: a key yields its table value, any other
      code passes through unchanged. */
  function IsoConvert(code: string): (iso: string)
    ensures BtToIso(code).Some? ==> iso == BtToIso(code).value && IsAlpha2(iso)
    ensures BtToIso(code).None? ==> iso == code
  {
    match BtToIso(code)
    case Some(v) => v
    case None => code
  }

  /** The lookup is not idempotent, so applying it once is a real choice:
      Belarus ("BO") becomes "BY", which is itself the key for Burundi. */
  lemma ConversionAppliedOnce()
    ensures IsoConvert("BO") == "BY"
    ensures BtToIso("BY") == Some("BI")
    ensures IsoConvert(IsoConvert("BO")) != IsoConvert("BO")
  {
  }

  /** The country code of a feed entry: the tag "BL" (Bolivia) is redirected to
      the key "BOLIV" before the lookup; every other tag is looked up as is. */
  function ResolveTag(tag: string): (iso: string)
    ensures tag == "BL" ==> iso == "BO"
    ensures tag != "BL" ==> iso == IsoConvert(tag)
    ensures IsAlpha2(tag) ==> IsAlpha2(iso)
  {
    IsoConvert(if tag == "BL" then "BOLIV" else tag)
  }

  /** Why the redirect exists: "BL" is not a key, so a plain lookup would keep
      "BL" (the ISO code of Saint Barthelemy), and Bolivia's ISO code "BO" is
      the key for Belarus. */
  lemma BolivianRedirectNeeded()
    ensures BtToIso("BL") == None && IsoConvert("BL") == "BL"
    ensures IsoConvert("BO") == "BY"
    ensures ResolveTag("BL") == "BO"
  {
  }
}
