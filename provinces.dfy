/** The thirteen Canadian provinces and territories: display names, two-letter codes and the
    name-to-code record (src/lib/canadian-provinces.ts). */
module CanadianProvinces {
  import opened Wrappers

  /** A province or territory code, the jurisdiction every deduction rule is keyed by. */
  datatype ProvinceCode = AB | BC | MB | NB | NL | NS | ON | PE | QC | SK | NT | NU | YT

  /** `CanadianProvincesAndTerritories`, in source order. */
  function Names(): (names: seq<string>)
    ensures |names| == 13
    ensures forall i, j :: 0 <= i < j < |names| ==> names[i] != names[j]
  {
    ["Alberta", "British Columbia", "Manitoba", "New Brunswick", "Newfoundland and Labrador",
     "Nova Scotia", "Ontario", "Prince Edward Island", "Quebec", "Saskatchewan",
     "Northwest Territories", "Nunavut", "Yukon"]
  }

  /** `CanadianProvinceAndTerritoryCodes`, in source order. */
  function Codes(): (codes: seq<string>)
    ensures |codes| == 13
    ensures forall i, j :: 0 <= i < j < |codes| ==> codes[i] != codes[j]
  {
    ["AB", "BC", "MB", "NB", "NL", "NS", "ON", "PE", "QC", "SK", "NT", "NU", "YT"]
  }

  /** Every code of the datatype, in the same order as `Codes()`. */
  function AllCodes(): seq<ProvinceCode>
  {
    [AB, BC, MB, NB, NL, NS, ON, PE, QC, SK, NT, NU, YT]
  }

  /** The string spelling of a code. */
  function CodeString(c: ProvinceCode): (s: string)
    ensures s in Codes()
  {
    match c
    case AB => "AB" case BC => "BC" case MB => "MB" case NB => "NB" case NL => "NL"
    case NS => "NS" case ON => "ON" case PE => "PE" case QC => "QC" case SK => "SK"
    case NT => "NT" case NU => "NU" case YT => "YT"
  }

  /** Reads a code from its spelling; anything that is not one of the thirteen codes is `None`. */
  function ParseCode(s: string): (c: Option<ProvinceCode>)
    ensures c.Some? <==> s in Codes()
    ensures c.Some? ==> CodeString(c.value) == s
  {
    if s == "AB" then Some(AB) else if s == "BC" then Some(BC) else if s == "MB" then Some(MB)
    else if s == "NB" then Some(NB) else if s == "NL" then Some(NL) else if s == "NS" then Some(NS)
    else if s == "ON" then Some(ON) else if s == "PE" then Some(PE) else if s == "QC" then Some(QC)
    else if s == "SK" then Some(SK) else if s == "NT" then Some(NT) else if s == "NU" then Some(NU)
    else if s == "YT" then Some(YT) else None
  }

  /** `CanadianProvinceNameToCodeMap`. */
  function NameToCode(): map<string, string>
  {
    map["Alberta" := "AB", "British Columbia" := "BC", "Manitoba" := "MB",
        "New Brunswick" := "NB", "Newfoundland and Labrador" := "NL", "Nova Scotia" := "NS",
        "Ontario" := "ON", "Prince Edward Island" := "PE", "Quebec" := "QC",
        "Saskatchewan" := "SK", "Northwest Territories" := "NT", "Nunavut" := "NU",
        "Yukon" := "YT"]
  }

  /** The record is defined exactly on the names. */
  lemma NameToCodeDomain()
    ensures forall n :: n in NameToCode() <==> n in Names()
  {
    var names, m := Names(), NameToCode();
    assert m.Keys == {names[0], names[1], names[2], names[3], names[4], names[5], names[6],
                      names[7], names[8], names[9], names[10], names[11], names[12]};
  }

  /** The record sends the i-th name to the i-th code. */
  lemma NameToCodeAligned()
    ensures forall i :: 0 <= i < |Names()| ==> Names()[i] in NameToCode() && NameToCode()[Names()[i]] == Codes()[i]
  {
    AlignedLow();
    AlignedHigh();
  }

  lemma AlignedLow()
    ensures forall i :: 0 <= i < 7 ==> Names()[i] in NameToCode() && NameToCode()[Names()[i]] == Codes()[i]
  {
    var names, codes, m := Names(), Codes(), NameToCode();
    assert m[names[0]] == codes[0] && m[names[1]] == codes[1] && m[names[2]] == codes[2];
    assert m[names[3]] == codes[3] && m[names[4]] == codes[4] && m[names[5]] == codes[5];
    assert m[names[6]] == codes[6];
  }

  lemma AlignedHigh()
    ensures forall i :: 7 <= i < 13 ==> Names()[i] in NameToCode() && NameToCode()[Names()[i]] == Codes()[i]
  {
    var names, codes, m := Names(), Codes(), NameToCode();
    assert m[names[7]] == codes[7] && m[names[8]] == codes[8] && m[names[9]] == codes[9];
    assert m[names[10]] == codes[10] && m[names[11]] == codes[11] && m[names[12]] == codes[12];
  }

  /** The record is one-to-one and its image is exactly the code list. */
  lemma NameToCodeBijective()
    ensures forall a, b :: a in NameToCode() && b in NameToCode() && a != b ==> NameToCode()[a] != NameToCode()[b]
    ensures forall s :: s in NameToCode().Values <==> s in Codes()
  {
    NameToCodeDomain();
    NameToCodeAligned();
    var names, codes, m := Names(), Codes(), NameToCode();
    forall s | s in codes ensures s in m.Values {
      var i :| 0 <= i < |codes| && codes[i] == s;
      assert m[names[i]] == s;
    }
  }

  /** Quebec, the jurisdiction on which the deduction rules branch, maps to "QC". */
  lemma QuebecIsQC()
    ensures NameToCode()["Quebec"] == "QC" && ParseCode("QC") == Some(QC)
  {
  }

  /** Spelling a code and reading it back gives the code again. */
  lemma CodeRoundTrip(c: ProvinceCode)
    ensures ParseCode(CodeString(c)) == Some(c)
  {
  }

  /** The datatype has exactly the thirteen codes, listed in the order of `Codes()`. */
  lemma AllCodesMatchCodes()
    ensures |AllCodes()| == |Codes()|
    ensures forall i :: 0 <= i < |AllCodes()| ==> CodeString(AllCodes()[i]) == Codes()[i]
    ensures forall c: ProvinceCode :: c in AllCodes()
  {
    forall c: ProvinceCode ensures c in AllCodes() {
      match c
      case AB => assert AllCodes()[0] == c;
      case BC => assert AllCodes()[1] == c;
      case MB => assert AllCodes()[2] == c;
      case NB => assert AllCodes()[3] == c;
      case NL => assert AllCodes()[4] == c;
      case NS => assert AllCodes()[5] == c;
      case ON => assert AllCodes()[6] == c;
      case PE => assert AllCodes()[7] == c;
      case QC => assert AllCodes()[8] == c;
      case SK => assert AllCodes()[9] == c;
      case NT => assert AllCodes()[10] == c;
      case NU => assert AllCodes()[11] == c;
      case YT => assert AllCodes()[12] == c;
    }
  }
}
