/** getSecurityTypesFromScanResult: the security types a beacon's capability string advertises. */
module ScanSecurity {
  import opened Wrappers
  import opened Wifi
  import opened Substrings

  /** First-match chain over substring tests of the capability string. */
  function SecurityTypesFromScanResult(scan: ScanResult): (r: seq<Security>)
    ensures 1 <= |r| <= 2 && Distinct(r)
    ensures |r| == 2 ==> r == [Psk, Sae] || r == [Open, Owe]
  {
    match scan.capabilities
    case None => [Open]
    case Some(c) =>
      if Contains(c, "PSK") && Contains(c, "SAE") then [Psk, Sae]
      else if Contains(c, "OWE_TRANSITION") then [Open, Owe]
      else if Contains(c, "OWE") then [Owe]
      else if Contains(c, "WEP") then [Wep]
      else if Contains(c, "SAE") then [Sae]
      else if Contains(c, "PSK") then [Psk]
      else if Contains(c, "EAP_SUITE_B_192") then [EapSuiteB]
      else if Contains(c, "EAP") then [Eap]
      else [Open]
  }

  /** Reference definition: which types a capability string advertises, stated per type
      rather than as a first-match chain. */
  predicate Advertises(capabilities: Option<string>, t: Security)
  {
    match capabilities
    case None => t == Open
    case Some(c) =>
      var psk, sae, owe, wep := Contains(c, "PSK"), Contains(c, "SAE"), Contains(c, "OWE"), Contains(c, "WEP");
      var oweTransition, suiteB, eap := Contains(c, "OWE_TRANSITION"), Contains(c, "EAP_SUITE_B_192"), Contains(c, "EAP");
      match t
      case Psk => psk && (sae || (!owe && !wep))
      case Sae => sae && (psk || (!owe && !wep))
      case Owe => owe && !(psk && sae)
      case Wep => wep && !owe && !(psk && sae)
      case EapSuiteB => suiteB && !psk && !sae && !owe && !wep
      case Eap => eap && !suiteB && !psk && !sae && !owe && !wep
      case Open => (oweTransition && !(psk && sae)) || (!psk && !sae && !owe && !wep && !eap)
  }

  /** The classifier returns exactly the advertised types. */
  lemma ClassificationMatchesAdvertised(scan: ScanResult, t: Security)
    ensures t in SecurityTypesFromScanResult(scan) <==> Advertises(scan.capabilities, t)
  {
    if scan.capabilities.Some? {
      var c := scan.capabilities.value;
      if Contains(c, "OWE_TRANSITION") {
        ContainsPrefixOf(c, "OWE_TRANSITION", "OWE");
      }
      if Contains(c, "EAP_SUITE_B_192") {
        ContainsPrefixOf(c, "EAP_SUITE_B_192", "EAP");
      }
    }
  }

  /** A null capability string and a string with no recognised token both give [NONE]. */
  lemma NothingRecognisedIsOpen(scan: ScanResult)
    requires scan.capabilities.Some? ==>
      var c := scan.capabilities.value;
      !Contains(c, "PSK") && !Contains(c, "SAE") && !Contains(c, "OWE") && !Contains(c, "WEP") && !Contains(c, "EAP")
    ensures SecurityTypesFromScanResult(scan) == [Open]
  {
    if scan.capabilities.Some? {
      var c := scan.capabilities.value;
      if Contains(c, "OWE_TRANSITION") {
        ContainsPrefixOf(c, "OWE_TRANSITION", "OWE");
      }
      if Contains(c, "EAP_SUITE_B_192") {
        ContainsPrefixOf(c, "EAP_SUITE_B_192", "EAP");
      }
    }
  }

  /** An empty capability string is an open beacon. */
  lemma EmptyCapabilitiesIsOpen(scan: ScanResult)
    requires scan.capabilities == Some("")
    ensures SecurityTypesFromScanResult(scan) == [Open]
  {
    TooLong("", "PSK");
    TooLong("", "SAE");
    TooLong("", "OWE");
    TooLong("", "WEP");
    TooLong("", "EAP");
    NothingRecognisedIsOpen(scan);
  }

  /** "PSK" together with "SAE" wins over every other token. */
  lemma PskAndSaeWin(scan: ScanResult)
    requires scan.capabilities.Some?
    requires Contains(scan.capabilities.value, "PSK") && Contains(scan.capabilities.value, "SAE")
    ensures SecurityTypesFromScanResult(scan) == [Psk, Sae]
  {
  }

  /** An OWE transition beacon (not also PSK and SAE) is [NONE, OWE], never [OWE]. */
  lemma OweTransitionIsOpenAndOwe(scan: ScanResult)
    requires scan.capabilities.Some?
    requires Contains(scan.capabilities.value, "OWE_TRANSITION")
    requires !(Contains(scan.capabilities.value, "PSK") && Contains(scan.capabilities.value, "SAE"))
    ensures SecurityTypesFromScanResult(scan) == [Open, Owe]
    ensures SecurityTypesFromScanResult(scan) != [Owe]
  {
  }

  /** Token facts about the capability string "[OWE]". */
  lemma OweTokens()
    ensures Contains("[OWE]", "OWE") && !Contains("[OWE]", "PSK") && !Contains("[OWE]", "OWE_TRANSITION")
  {
    CharAbsent("[OWE]", "PSK", 0);
    TooLong("[OWE]", "OWE_TRANSITION");
    assert "[OWE]" == "[" + "OWE" + "]";
    ContainsInside("[", "OWE", "]");
  }

  /** "[OWE]" is a pure OWE beacon. */
  lemma OweScenario(ssid: string, level: int)
    ensures SecurityTypesFromScanResult(ScanResult(ssid, Some("[OWE]"), level)) == [Owe]
  {
    OweTokens();
  }

  /** Token facts about the capability string "[OWE_TRANSITION]". */
  lemma OweTransitionTokens()
    ensures Contains("[OWE_TRANSITION]", "OWE_TRANSITION") && !Contains("[OWE_TRANSITION]", "PSK")
  {
    OweTransitionHasNoPsk();
    OweTransitionHasItself();
  }

  lemma OweTransitionHasItself()
    ensures Contains("[OWE_TRANSITION]", "OWE_TRANSITION")
  {
    assert "[OWE_TRANSITION]"[1..] == "OWE_TRANSITION]";
    assert "OWE_TRANSITION" <= "OWE_TRANSITION]";
  }

  lemma OweTransitionHasNoPsk()
    ensures !Contains("[OWE_TRANSITION]", "PSK")
  {
    CharAbsent("[OWE_TRANSITION]", "PSK", 0);
  }

  /** "[OWE_TRANSITION]" is an OWE transition beacon. */
  lemma OweTransitionScenario(ssid: string, level: int)
    ensures SecurityTypesFromScanResult(ScanResult(ssid, Some("[OWE_TRANSITION]"), level)) == [Open, Owe]
  {
    OweTransitionTokens();
    OweTransitionIsOpenAndOwe(ScanResult(ssid, Some("[OWE_TRANSITION]"), level));
  }

  /** Token facts about the capability string "[SAE]". */
  lemma SaeTokens()
    ensures Contains("[SAE]", "SAE") && !Contains("[SAE]", "PSK") && !Contains("[SAE]", "OWE_TRANSITION")
    ensures !Contains("[SAE]", "OWE") && !Contains("[SAE]", "WEP")
  {
    CharAbsent("[SAE]", "PSK", 0);
    TooLong("[SAE]", "OWE_TRANSITION");
    CharAbsent("[SAE]", "OWE", 0);
    CharAbsent("[SAE]", "WEP", 0);
    assert "[SAE]" == "[" + "SAE" + "]";
    ContainsInside("[", "SAE", "]");
  }

  /** "[SAE]" is an SAE-only beacon. */
  lemma SaeScenario(ssid: string, level: int)
    ensures SecurityTypesFromScanResult(ScanResult(ssid, Some("[SAE]"), level)) == [Sae]
  {
    SaeTokens();
  }

  /** Token facts about the capability string "[PSK]". */
  lemma PskTokens()
    ensures Contains("[PSK]", "PSK") && !Contains("[PSK]", "SAE") && !Contains("[PSK]", "OWE_TRANSITION")
    ensures !Contains("[PSK]", "OWE") && !Contains("[PSK]", "WEP")
  {
    CharAbsent("[PSK]", "SAE", 1);
    TooLong("[PSK]", "OWE_TRANSITION");
    CharAbsent("[PSK]", "OWE", 0);
    CharAbsent("[PSK]", "WEP", 0);
    assert "[PSK]" == "[" + "PSK" + "]";
    ContainsInside("[", "PSK", "]");
  }

  /** "[PSK]" is a PSK-only beacon. */
  lemma PskScenario(ssid: string, level: int)
    ensures SecurityTypesFromScanResult(ScanResult(ssid, Some("[PSK]"), level)) == [Psk]
  {
    PskTokens();
  }
}
