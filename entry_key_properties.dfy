/** What mapScanResultsToKey promises about the keys it returns, proved of the specification map
    ScanResultsByKey (which MapScanResultsToKey is proved to return). */
module EntryKeyProperties {
  import opened Wrappers
  import opened Wifi
  import opened ScanSecurity
  import opened EntryKeys

  /** The scan appears in the output list of the key (its SSID, t). */
  predicate InOutput(m: map<Key, seq<ScanResult>>, s: ScanResult, t: Security)
  {
    Key(s.ssid, t) in m && s in m[Key(s.ssid, t)]
  }

  // ---------------------------------------------------------------------------------------
  // Shape of the output

  lemma {:induction false} ScansForKeyIsSubsequence(inputs: Inputs, scans: seq<ScanResult>, key: Key)
    ensures Subsequence(ScansForKey(inputs, scans, key), scans)
    decreases |scans|
  {
    if scans != [] {
      var prefix, last := scans[..|scans| - 1], scans[|scans| - 1];
      ScansForKeyIsSubsequence(inputs, prefix, key);
      var r := ScansForKey(inputs, scans, key);
      if FiledUnder(inputs, last, key) {
        assert r == ScansForKey(inputs, prefix, key) + [last];
        assert r[..|r| - 1] == ScansForKey(inputs, prefix, key) && r[|r| - 1] == last;
      } else {
        assert r == ScansForKey(inputs, prefix, key);
      }
    }
  }

  /** A scan is in the list of a key exactly when it is in the batch and is filed under that key. */
  lemma OutputMembership(inputs: Inputs, k: Key, s: ScanResult)
    ensures k in ScanResultsByKey(inputs) && s in ScanResultsByKey(inputs)[k]
        <==> s in inputs.scanResults && FiledUnder(inputs, s, k)
  {
    ScanResultsByKeyEntries(inputs);
    ScansForKeyMembership(inputs, inputs.scanResults, k, s);
  }

  /** Every output list is non-empty, belongs to a non-empty SSID, holds only scans of that SSID,
      and lists them in their input order. */
  lemma OutputListsWellFormed(inputs: Inputs, k: Key)
    requires k in ScanResultsByKey(inputs)
    ensures k.ssid != ""
    ensures ScanResultsByKey(inputs)[k] != []
    ensures forall s | s in ScanResultsByKey(inputs)[k] :: s.ssid == k.ssid && s in inputs.scanResults
    ensures Subsequence(ScanResultsByKey(inputs)[k], inputs.scanResults)
  {
    var m := ScanResultsByKey(inputs);
    ScanResultsByKeyEntries(inputs);
    KeyOfNonEmpty(inputs, k);
    forall s: ScanResult | s in m[k]
      ensures s.ssid == k.ssid && s in inputs.scanResults
    {
      OutputMembership(inputs, k, s);
    }
    ScansForKeyIsSubsequence(inputs, inputs.scanResults, k);
  }

  /** An empty batch gives an empty map. */
  lemma EmptyBatch(inputs: Inputs)
    requires inputs.scanResults == []
    ensures ScanResultsByKey(inputs) == map[]
  {
    assert CandidateKeys(inputs.scanResults) == {};
  }

  /** A scan with an empty SSID is in no output list. */
  lemma EmptySsidUnderNoKey(inputs: Inputs, s: ScanResult, k: Key)
    requires s.ssid == ""
    ensures !(k in ScanResultsByKey(inputs) && s in ScanResultsByKey(inputs)[k])
  {
    OutputMembership(inputs, k, s);
  }

  /** No key carries a security type whose feature gate is off. */
  lemma NoUnsupportedKey(inputs: Inputs, k: Key)
    requires k in ScanResultsByKey(inputs)
    ensures !inputs.gates.isWpa3SaeSupported ==> k.security != Sae
    ensures !inputs.gates.isWpa3SuiteBSupported ==> k.security != EapSuiteB
    ensures !inputs.gates.isEnhancedOpenSupported ==> k.security != Owe
  {
    var s := ScanResultsByKey(inputs)[k][0];
    OutputListsWellFormed(inputs, k);
    OutputMembership(inputs, k, s);
  }

  /** For a scan of the batch with a non-empty SSID, the keys it lands under are its chosen types. */
  lemma OutputOfScan(inputs: Inputs, s: ScanResult, t: Security)
    requires s in inputs.scanResults && s.ssid != ""
    ensures InOutput(ScanResultsByKey(inputs), s, t) <==> t in ChosenSecurityTypes(inputs, s)
  {
    OutputMembership(inputs, Key(s.ssid, t), s);
  }

  // ---------------------------------------------------------------------------------------
  // Single-selection mode

  /** Under single selection a scan gets at most one security type: the chain's fall-through
      branch only sees lists of at most one element. */
  lemma SingleSelectionChoosesAtMostOne(inputs: Inputs, s: ScanResult)
    requires inputs.chooseSingleSecurity
    ensures |ChosenSecurityTypes(inputs, s)| <= 1
  {
    var all := SecurityTypesFromScanResult(s);
    var types := FilteredSecurityTypes(inputs, s);
    if |types| >= 2 {
      assert types[0] in all && types[1] in all && types[0] != types[1];
      assert |all| == 2;
      assert all == [Psk, Sae] || all == [Open, Owe];
    }
  }

  /** Under single selection each scan lands under at most one key. */
  lemma SingleSelectionAtMostOneKey(inputs: Inputs, s: ScanResult, k1: Key, k2: Key)
    requires inputs.chooseSingleSecurity
    requires k1 in ScanResultsByKey(inputs) && s in ScanResultsByKey(inputs)[k1]
    requires k2 in ScanResultsByKey(inputs) && s in ScanResultsByKey(inputs)[k2]
    ensures k1 == k2
  {
    OutputMembership(inputs, k1, s);
    OutputMembership(inputs, k2, s);
    SingleSelectionChoosesAtMostOne(inputs, s);
    var chosen := ChosenSecurityTypes(inputs, s);
    assert chosen == [chosen[0]];
  }

  /** A PSK-only scan is dropped exactly when there is no PSK config, there is an SAE config and
      an SAE beacon of that SSID is in range; otherwise it lands under PSK only. */
  lemma PskOnlyRule(inputs: Inputs, s: ScanResult, t: Security)
    requires inputs.chooseSingleSecurity && s in inputs.scanResults && s.ssid != ""
    requires IsPsk(FilteredSecurityTypes(inputs, s))
    ensures var g := GroupInfoOf(inputs, s.ssid);
      (InOutput(ScanResultsByKey(inputs), s, t) <==> t == Psk && !(!g.pskConfigExists && g.saeConfigExists && g.saeInRange))
  {
    OutputOfScan(inputs, s, t);
  }

  /** A PSK/SAE transition scan lands under SAE exactly when there is no PSK config and there is
      an SAE config, and under PSK otherwise. */
  lemma PskSaeTransitionRule(inputs: Inputs, s: ScanResult, t: Security)
    requires inputs.chooseSingleSecurity && s in inputs.scanResults && s.ssid != ""
    requires IsPskSaeTransition(FilteredSecurityTypes(inputs, s))
    ensures var g := GroupInfoOf(inputs, s.ssid);
      (InOutput(ScanResultsByKey(inputs), s, t) <==> t == if !g.pskConfigExists && g.saeConfigExists then Sae else Psk)
  {
    OutputOfScan(inputs, s, t);
  }

  /** An SAE-only scan lands under SAE when there is no PSK config and either an SAE config or
      no PSK beacon in range; under PSK otherwise. */
  lemma SaeOnlyRule(inputs: Inputs, s: ScanResult, t: Security)
    requires inputs.chooseSingleSecurity && s in inputs.scanResults && s.ssid != ""
    requires IsSae(FilteredSecurityTypes(inputs, s))
    ensures var g := GroupInfoOf(inputs, s.ssid);
      (InOutput(ScanResultsByKey(inputs), s, t) <==> t == if !g.pskConfigExists && (g.saeConfigExists || !g.pskInRange) then Sae else Psk)
  {
    OutputOfScan(inputs, s, t);
  }

  /** A pure OWE scan is never added to any key under single selection. */
  lemma PureOweNeverAdded(inputs: Inputs, s: ScanResult, t: Security)
    requires inputs.chooseSingleSecurity
    requires IsOwe(FilteredSecurityTypes(inputs, s))
    ensures !InOutput(ScanResultsByKey(inputs), s, t)
  {
    var all := SecurityTypesFromScanResult(s);
    assert Owe in all;
    assert Psk !in all && Sae !in all;
    OutputMembership(inputs, Key(s.ssid, t), s);
  }

  /** An OWE transition scan lands under OWE when there is an OWE config or no open config, and
      under NONE otherwise. */
  lemma OweTransitionRule(inputs: Inputs, s: ScanResult, t: Security)
    requires inputs.chooseSingleSecurity && s in inputs.scanResults && s.ssid != ""
    requires IsOweTransition(FilteredSecurityTypes(inputs, s))
    ensures var g := GroupInfoOf(inputs, s.ssid);
      (InOutput(ScanResultsByKey(inputs), s, t) <==> t == if g.oweConfigExists || !g.openConfigExists then Owe else Open)
  {
    var all := SecurityTypesFromScanResult(s);
    assert Open in all && Owe in all;
    assert Psk !in all && Sae !in all;
    OutputOfScan(inputs, s, t);
  }

  /** An open scan is dropped when an OWE beacon is in range and there is an OWE config or no open
      config; otherwise it lands under NONE only. */
  lemma OpenRule(inputs: Inputs, s: ScanResult, t: Security)
    requires inputs.chooseSingleSecurity && s in inputs.scanResults && s.ssid != ""
    requires IsOpen(FilteredSecurityTypes(inputs, s))
    ensures var g := GroupInfoOf(inputs, s.ssid);
      (InOutput(ScanResultsByKey(inputs), s, t) <==> t == Open && !(g.oweInRange && (g.oweConfigExists || !g.openConfigExists)))
  {
    var all := SecurityTypesFromScanResult(s);
    assert Open in all;
    assert Psk !in all && Sae !in all;
    OutputOfScan(inputs, s, t);
  }

  /** A WEP, EAP or Suite-B scan lands under its own type. */
  lemma OtherTypesRule(inputs: Inputs, s: ScanResult, t: Security)
    requires inputs.chooseSingleSecurity && s in inputs.scanResults && s.ssid != ""
    requires SecurityTypesFromScanResult(s) in {[Wep], [Eap], [EapSuiteB]}
    ensures InOutput(ScanResultsByKey(inputs), s, t) <==> t in FilteredSecurityTypes(inputs, s)
  {
    var types := FilteredSecurityTypes(inputs, s);
    assert Psk !in types && Sae !in types && Open !in types && Owe !in types;
    assert ChosenSecurityTypes(inputs, s) == types;
    OutputOfScan(inputs, s, t);
  }

  // ---------------------------------------------------------------------------------------
  // Multi-key mode and empty filtered lists

  /** Without single selection a scan lands under every type of its filtered list, and an
      SAE-only scan under PSK too. */
  lemma MultiKeyRule(inputs: Inputs, s: ScanResult, t: Security)
    requires !inputs.chooseSingleSecurity && s in inputs.scanResults && s.ssid != ""
    ensures var types := FilteredSecurityTypes(inputs, s);
      InOutput(ScanResultsByKey(inputs), s, t) <==> t in types || (t == Psk && IsSae(types))
  {
    OutputOfScan(inputs, s, t);
  }

  /** A scan whose filtered list is empty lands under no key, in either mode. */
  lemma EmptyFilteredUnderNoKey(inputs: Inputs, s: ScanResult, t: Security)
    requires FilteredSecurityTypes(inputs, s) == []
    ensures !InOutput(ScanResultsByKey(inputs), s, t)
  {
    OutputMembership(inputs, Key(s.ssid, t), s);
  }

  // ---------------------------------------------------------------------------------------
  // Scenarios
  /** One list [s] under each key (SSID of s, t) for t in types. */
  function KeysOf(s: ScanResult, types: seq<Security>): map<Key, seq<ScanResult>>
  {
    map t | t in types :: Key(s.ssid, t) := [s]
  }

  lemma KeysOfEntries(s: ScanResult, types: seq<Security>)
    ensures forall k :: k in KeysOf(s, types) <==> k.ssid == s.ssid && k.security in types
    ensures forall k | k in KeysOf(s, types) :: KeysOf(s, types)[k] == [s]
  {
    forall k: Key | k.ssid == s.ssid && k.security in types
      ensures k in KeysOf(s, types)
    {
      assert k == Key(s.ssid, k.security);
    }
  }

  lemma KeysOfOne(s: ScanResult, t: Security)
    ensures KeysOf(s, [t]) == map[Key(s.ssid, t) := [s]]
  {
    assert KeysOf(s, [t]).Keys == {Key(s.ssid, t)};
  }

  lemma KeysOfTwo(s: ScanResult, t: Security, u: Security)
    requires t != u
    ensures KeysOf(s, [t, u]) == map[Key(s.ssid, t) := [s], Key(s.ssid, u) := [s]]
  {
    assert KeysOf(s, [t, u]).Keys == {Key(s.ssid, t), Key(s.ssid, u)};
  }

  /** A batch of one scan with a non-empty SSID: one key per chosen type, each listing the scan. */
  lemma OneScanBatch(inputs: Inputs, s: ScanResult)
    requires inputs.scanResults == [s] && s.ssid != ""
    ensures ScanResultsByKey(inputs) == KeysOf(s, ChosenSecurityTypes(inputs, s))
  {
    var m, expected := ScanResultsByKey(inputs), KeysOf(s, ChosenSecurityTypes(inputs, s));
    OneScanEntries(inputs, s);
    KeysOfEntries(s, ChosenSecurityTypes(inputs, s));
    SameEntries(m, expected);
  }

  /** Two maps with the same keys and the same value at each key are equal. */
  lemma SameEntries(m: map<Key, seq<ScanResult>>, e: map<Key, seq<ScanResult>>)
    requires forall k :: k in m <==> k in e
    requires forall k | k in m :: m[k] == e[k]
    ensures m == e
  {
    assert m.Keys == e.Keys;
  }

  lemma OneScanEntries(inputs: Inputs, s: ScanResult)
    requires inputs.scanResults == [s]
    ensures forall k :: k in ScanResultsByKey(inputs) <==> FiledUnder(inputs, s, k)
    ensures forall k | k in ScanResultsByKey(inputs) :: ScanResultsByKey(inputs)[k] == [s]
  {
    ScanResultsByKeyEntries(inputs);
    forall k: Key
      ensures ScansForKey(inputs, inputs.scanResults, k) == if FiledUnder(inputs, s, k) then [s] else []
    {
      assert inputs.scanResults[..0] == [];
    }
  }

  /** A lone OWE transition beacon under single selection with OWE supported: filed under OWE
      when there is an OWE config or no open config, under NONE otherwise. */
  lemma LoneOweTransitionBeacon(inputs: Inputs, obs: ScanResult)
    requires inputs.scanResults == [obs] && obs.ssid != ""
    requires inputs.chooseSingleSecurity && inputs.gates.isEnhancedOpenSupported
    requires SecurityTypesFromScanResult(obs) == [Open, Owe]
    ensures var configs := inputs.wifiConfigsByKey;
      var t := if Key(obs.ssid, Owe) in configs || Key(obs.ssid, Open) !in configs then Owe else Open;
      ScanResultsByKey(inputs) == map[Key(obs.ssid, t) := [obs]]
  {
    var configs := inputs.wifiConfigsByKey;
    var t := if Key(obs.ssid, Owe) in configs || Key(obs.ssid, Open) !in configs then Owe else Open;
    OweTransitionChoice(inputs, obs);
    OneScanBatch(inputs, obs);
    KeysOfOne(obs, t);
  }

  lemma OweTransitionChoice(inputs: Inputs, obs: ScanResult)
    requires inputs.chooseSingleSecurity && inputs.gates.isEnhancedOpenSupported
    requires SecurityTypesFromScanResult(obs) == [Open, Owe]
    ensures var configs := inputs.wifiConfigsByKey;
      ChosenSecurityTypes(inputs, obs)
        == [if Key(obs.ssid, Owe) in configs || Key(obs.ssid, Open) !in configs then Owe else Open]
  {
    var types := FilteredSecurityTypes(inputs, obs);
    assert Open in types && Owe in types && Psk !in types && Sae !in types;
  }

  /** A lone SAE-only beacon without single selection, SAE supported: filed under SAE and PSK. */
  lemma LoneSaeBeaconMultiKey(inputs: Inputs, obs: ScanResult)
    requires inputs.scanResults == [obs] && obs.ssid != ""
    requires !inputs.chooseSingleSecurity && inputs.gates.isWpa3SaeSupported
    requires SecurityTypesFromScanResult(obs) == [Sae]
    ensures ScanResultsByKey(inputs) == map[Key(obs.ssid, Sae) := [obs], Key(obs.ssid, Psk) := [obs]]
  {
    SaeChoiceMultiKey(inputs, obs);
    OneScanBatch(inputs, obs);
    KeysOfTwo(obs, Sae, Psk);
  }

  lemma SaeChoiceMultiKey(inputs: Inputs, obs: ScanResult)
    requires !inputs.chooseSingleSecurity && inputs.gates.isWpa3SaeSupported
    requires SecurityTypesFromScanResult(obs) == [Sae]
    ensures ChosenSecurityTypes(inputs, obs) == [Sae, Psk]
  {
    var types := FilteredSecurityTypes(inputs, obs);
    assert Sae in types;
    assert types == [Sae];
  }

  /** The in-range flags ignore the gates: with SAE unsupported, an SAE config and no PSK config,
      an SAE beacon still drops the PSK beacon of the same SSID, while its own list filters to
      empty, so the network gets no key at all. */
  lemma UnsupportedSaeHidesPsk(inputs: Inputs, p: ScanResult, q: ScanResult)
    requires inputs.scanResults == [p, q] && p.ssid == q.ssid
    requires inputs.chooseSingleSecurity && !inputs.gates.isWpa3SaeSupported
    requires SecurityTypesFromScanResult(p) == [Psk] && SecurityTypesFromScanResult(q) == [Sae]
    requires Key(p.ssid, Sae) in inputs.wifiConfigsByKey && Key(p.ssid, Psk) !in inputs.wifiConfigsByKey
    ensures ScanResultsByKey(inputs) == map[]
  {
    assert q in inputs.scanResults;
    assert InRange(inputs.scanResults, p.ssid, Sae);
    assert ChosenSecurityTypes(inputs, p) == [];
    assert FilteredSecurityTypes(inputs, q) == [];
    forall k | k in ScanResultsByKey(inputs)
      ensures false
    {
      var s := ScanResultsByKey(inputs)[k][0];
      OutputListsWellFormed(inputs, k);
      OutputMembership(inputs, k, s);
    }
  }

  /** An OWE transition beacon of "Cafe", single selection, OWE supported, no saved config:
      filed under (Cafe, OWE) only. */
  lemma CafeWithoutConfigs(obs: ScanResult, sae: bool, suiteB: bool)
    requires obs.ssid == "Cafe" && obs.capabilities == Some("[OWE_TRANSITION]")
    ensures ScanResultsByKey(Inputs([obs], true, map[], Gates(sae, suiteB, true))) == map[Key("Cafe", Owe) := [obs]]
  {
    OweTransitionScenario(obs.ssid, obs.level);
    LoneOweTransitionBeacon(Inputs([obs], true, map[], Gates(sae, suiteB, true)), obs);
  }

  /** The same beacon with an open config and no OWE config: filed under (Cafe, NONE) only. */
  lemma CafeWithOpenConfig(obs: ScanResult, configs: map<Key, WifiConfiguration>, sae: bool, suiteB: bool)
    requires obs.ssid == "Cafe" && obs.capabilities == Some("[OWE_TRANSITION]")
    requires Key("Cafe", Open) in configs && Key("Cafe", Owe) !in configs
    ensures ScanResultsByKey(Inputs([obs], true, configs, Gates(sae, suiteB, true))) == map[Key("Cafe", Open) := [obs]]
  {
    OweTransitionScenario(obs.ssid, obs.level);
    LoneOweTransitionBeacon(Inputs([obs], true, configs, Gates(sae, suiteB, true)), obs);
  }

  /** An SAE beacon of "Net" without single selection, SAE supported: filed under both
      (Net, SAE) and (Net, PSK). */
  lemma NetSaeMultiKey(obs: ScanResult, configs: map<Key, WifiConfiguration>, suiteB: bool, owe: bool)
    requires obs.ssid == "Net" && obs.capabilities == Some("[SAE]")
    ensures ScanResultsByKey(Inputs([obs], false, configs, Gates(true, suiteB, owe)))
         == map[Key("Net", Sae) := [obs], Key("Net", Psk) := [obs]]
  {
    SaeScenario(obs.ssid, obs.level);
    LoneSaeBeaconMultiKey(Inputs([obs], false, configs, Gates(true, suiteB, owe)), obs);
  }

  /** A "[PSK]" and an "[SAE]" beacon of "Net", SAE unsupported, only an SAE config saved:
      no key at all. */
  lemma NetHiddenBySaeConfig(p: ScanResult, q: ScanResult, configs: map<Key, WifiConfiguration>, suiteB: bool, owe: bool)
    requires p.ssid == "Net" && p.capabilities == Some("[PSK]")
    requires q.ssid == "Net" && q.capabilities == Some("[SAE]")
    requires Key("Net", Sae) in configs && Key("Net", Psk) !in configs
    ensures ScanResultsByKey(Inputs([p, q], true, configs, Gates(false, suiteB, owe))) == map[]
  {
    PskScenario(p.ssid, p.level);
    SaeScenario(q.ssid, q.level);
    UnsupportedSaeHidesPsk(Inputs([p, q], true, configs, Gates(false, suiteB, owe)), p, q);
  }
}
