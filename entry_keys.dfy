/** mapScanResultsToKey: files every beacon of a scan under the WifiEntry keys it matches.
    The first half states, as functions, which scans each key collects; the method at the end
    is the imperative grouping-and-appending algorithm, proved to build exactly that map. */
module EntryKeys {
  import opened Wrappers
  import opened Wifi
  import opened ScanSecurity

  /** The three platform feature switches. */
  datatype Gates = Gates(isWpa3SaeSupported: bool, isWpa3SuiteBSupported: bool, isEnhancedOpenSupported: bool)

  /** Every input of one call, with a null configuration map already replaced by an empty one. */
  datatype Inputs = Inputs(
    scanResults: seq<ScanResult>,
    chooseSingleSecurity: bool,
    wifiConfigsByKey: map<Key, WifiConfiguration>,
    gates: Gates)

  /** The per-SSID facts the rules consult: which saved configurations exist and which
      security types some beacon of that SSID advertises. */
  datatype GroupInfo = GroupInfo(
    pskConfigExists: bool, saeConfigExists: bool, openConfigExists: bool, oweConfigExists: bool,
    pskInRange: bool, saeInRange: bool, oweInRange: bool, openInRange: bool)

  /** What the rules decide for one scan: drop it (`continue`) or add it under these types. */
  datatype Choice = Skip | Add(types: seq<Security>)

  function ConfigsOrEmpty(wifiConfigsByKey: Option<map<Key, WifiConfiguration>>): map<Key, WifiConfiguration>
  {
    match wifiConfigsByKey
    case None => map[]
    case Some(configs) => configs
  }

  // ---------------------------------------------------------------------------------------
  // Filtering unsupported security types

  /** List.remove(Object): removes the first occurrence of x, if there is one. */
  function RemoveFirst(types: seq<Security>, x: Security): (r: seq<Security>)
    ensures |r| == if x in types then |types| - 1 else |types|
    ensures forall t :: t != x ==> (t in r <==> t in types)
    ensures Distinct(types) ==> Distinct(r) && x !in r
  {
    if types == [] then []
    else if types[0] == x then types[1..]
    else
      var rest := RemoveFirst(types[1..], x);
      assert Distinct(types) ==> Distinct(types[1..]) && types[0] !in types[1..];
      [types[0]] + rest
  }

  /** Whether the gates let a key carry security type t. */
  predicate IsSupported(t: Security, gates: Gates)
  {
    match t
    case Sae => gates.isWpa3SaeSupported
    case EapSuiteB => gates.isWpa3SuiteBSupported
    case Owe => gates.isEnhancedOpenSupported
    case _ => true
  }

  /** The classified list after an unsupported SAE, Suite-B and OWE have been removed. */
  function SupportedSecurityTypes(types: seq<Security>, gates: Gates): (r: seq<Security>)
    ensures Distinct(types) ==> Distinct(r) && forall t :: t in r <==> t in types && IsSupported(t, gates)
  {
    var withoutSae := if !gates.isWpa3SaeSupported then RemoveFirst(types, Sae) else types;
    var withoutSuiteB := if !gates.isWpa3SuiteBSupported then RemoveFirst(withoutSae, EapSuiteB) else withoutSae;
    if !gates.isEnhancedOpenSupported then RemoveFirst(withoutSuiteB, Owe) else withoutSuiteB
  }

  // ---------------------------------------------------------------------------------------
  // The six transition flags of a filtered list

  predicate IsSae(types: seq<Security>) { Sae in types && Psk !in types }
  predicate IsPsk(types: seq<Security>) { Psk in types && Sae !in types }
  predicate IsPskSaeTransition(types: seq<Security>) { Psk in types && Sae in types }
  predicate IsOwe(types: seq<Security>) { Owe in types && Open !in types }
  predicate IsOweTransition(types: seq<Security>) { Open in types && Owe in types }
  predicate IsOpen(types: seq<Security>) { Open in types && Owe !in types }

  // ---------------------------------------------------------------------------------------
  // The selection rules

  /** The single-selection rule chain, or the multi-key rule, for one filtered list.
      Only PSK can appear in the choice without being in the list. */
  function ChooseSecurityTypes(types: seq<Security>, chooseSingleSecurity: bool, g: GroupInfo): (c: Choice)
    ensures c.Add? ==> forall t :: t in c.types && t != Psk ==> t in types
    ensures c.Add? && Distinct(types) ==> Distinct(c.types)
  {
    if chooseSingleSecurity then
      if IsPsk(types) then
        // No PSK config, but an SAE config and an SAE beacon: leave only the SAE beacon.
        if !g.pskConfigExists && g.saeConfigExists && g.saeInRange then Skip else Add([Psk])
      else if IsPskSaeTransition(types) then
        if !g.pskConfigExists && g.saeConfigExists then Add([Sae]) else Add([Psk])
      else if IsSae(types) then
        if !g.pskConfigExists && (g.saeConfigExists || !g.pskInRange) then Add([Sae]) else Add([Psk])
      else if IsOwe(types) then
        // Either dropped, or added under no type at all.
        if g.openInRange && g.openConfigExists && !g.oweConfigExists then Skip else Add([])
      else if IsOweTransition(types) then
        if g.oweConfigExists || !g.openConfigExists then Add([Owe]) else Add([Open])
      else if IsOpen(types) then
        if g.oweInRange && (g.oweConfigExists || !g.openConfigExists) then Skip else Add([Open])
      else
        Add(types)
    else
      // SAE-only beacons also match PSK configs, which the framework upgrades to SAE.
      Add(types + if IsSae(types) then [Psk] else [])
  }

  // ---------------------------------------------------------------------------------------
  // What a call computes, per scan and per key

  /** Some beacon with this SSID advertises t, judged on its UNFILTERED classification. */
  predicate InRange(scans: seq<ScanResult>, ssid: string, t: Security)
  {
    exists s :: s in scans && s.ssid == ssid && t in SecurityTypesFromScanResult(s)
  }

  /** The SSID's four config-exists flags and four in-range flags. */
  function GroupInfoOf(inputs: Inputs, ssid: string): GroupInfo
  {
    var configs := inputs.wifiConfigsByKey;
    GroupInfo(
      Key(ssid, Psk) in configs, Key(ssid, Sae) in configs, Key(ssid, Open) in configs, Key(ssid, Owe) in configs,
      InRange(inputs.scanResults, ssid, Psk), InRange(inputs.scanResults, ssid, Sae),
      InRange(inputs.scanResults, ssid, Owe), InRange(inputs.scanResults, ssid, Open))
  }

  /** The filtered list the rules look at for this scan. */
  function FilteredSecurityTypes(inputs: Inputs, scan: ScanResult): (r: seq<Security>)
    ensures Distinct(r)
    ensures forall t :: t in r <==> t in SecurityTypesFromScanResult(scan) && IsSupported(t, inputs.gates)
  {
    SupportedSecurityTypes(SecurityTypesFromScanResult(scan), inputs.gates)
  }

  /** The security types under which this scan is added (empty when it is dropped). */
  function ChosenSecurityTypes(inputs: Inputs, scan: ScanResult): (r: seq<Security>)
    ensures Distinct(r)
    ensures forall t :: t in r && t != Psk ==> t in FilteredSecurityTypes(inputs, scan)
  {
    match ChooseSecurityTypes(FilteredSecurityTypes(inputs, scan), inputs.chooseSingleSecurity, GroupInfoOf(inputs, scan.ssid))
    case Skip => []
    case Add(chosen) => chosen
  }

  /** Whether mapScanResultsToKey appends this scan to the list of this key. */
  predicate FiledUnder(inputs: Inputs, scan: ScanResult, key: Key)
  {
    scan.ssid != "" && scan.ssid == key.ssid && key.security in ChosenSecurityTypes(inputs, scan)
  }

  /** The scans of `scans` filed under `key`, in their order in `scans`. */
  function ScansForKey(inputs: Inputs, scans: seq<ScanResult>, key: Key): seq<ScanResult>
    decreases |scans|
  {
    if scans == [] then []
    else
      var last := scans[|scans| - 1];
      ScansForKey(inputs, scans[..|scans| - 1], key) + if FiledUnder(inputs, last, key) then [last] else []
  }

  /** Every key a scan of the batch could be filed under. */
  function CandidateKeys(scans: seq<ScanResult>): set<Key>
  {
    set s, t | s in scans && t in AllSecurityTypes :: Key(s.ssid, t)
  }

  /** The result of mapScanResultsToKey: each key that collects some scan, with its scans. */
  function ScanResultsByKey(inputs: Inputs): map<Key, seq<ScanResult>>
  {
    map k | k in CandidateKeys(inputs.scanResults) && ScansForKey(inputs, inputs.scanResults, k) != []
      :: ScansForKey(inputs, inputs.scanResults, k)
  }

  // ---------------------------------------------------------------------------------------
  // Grouping by SSID (the stream's filter and groupingBy)

  /** The scans with this SSID, in input order: each of them as often as it occurs, and
      nothing else. */
  function SsidGroup(scans: seq<ScanResult>, ssid: string): (g: seq<ScanResult>)
    ensures forall s :: s in g <==> s in scans && s.ssid == ssid
    ensures Subsequence(g, scans)
    decreases |scans|
  {
    if scans == [] then []
    else
      var prefix, last := scans[..|scans| - 1], scans[|scans| - 1];
      var rest := SsidGroup(prefix, ssid);
      assert scans == prefix + [last];
      SsidGroupStepMembers(prefix, last, ssid, rest);
      SsidGroupStepOrder(prefix, last, ssid, rest);
      rest + if last.ssid == ssid then [last] else []
  }

  /** A group holds each scan with its SSID exactly as often as the batch does. */
  lemma {:induction false} SsidGroupCounts(scans: seq<ScanResult>, ssid: string)
    ensures forall s :: multiset(SsidGroup(scans, ssid))[s] == if s.ssid == ssid then multiset(scans)[s] else 0
    decreases |scans|
  {
    if scans != [] {
      var prefix, last := scans[..|scans| - 1], scans[|scans| - 1];
      SsidGroupCounts(prefix, ssid);
      assert scans == prefix + [last];
      SsidGroupStepCounts(prefix, last, ssid, SsidGroup(prefix, ssid));
    }
  }

  // Appending one scan to the batch extends its group by that scan exactly when it has the SSID.

  lemma SsidGroupStepMembers(prefix: seq<ScanResult>, last: ScanResult, ssid: string, rest: seq<ScanResult>)
    requires forall s :: s in rest <==> s in prefix && s.ssid == ssid
    ensures forall s :: s in rest + (if last.ssid == ssid then [last] else []) <==> s in prefix + [last] && s.ssid == ssid
  {
  }

  lemma SsidGroupStepCounts(prefix: seq<ScanResult>, last: ScanResult, ssid: string, rest: seq<ScanResult>)
    requires forall s :: multiset(rest)[s] == if s.ssid == ssid then multiset(prefix)[s] else 0
    ensures forall s :: multiset(rest + if last.ssid == ssid then [last] else [])[s]
                     == if s.ssid == ssid then multiset(prefix + [last])[s] else 0
  {
    assert multiset(prefix + [last]) == multiset(prefix) + multiset{last};
    if last.ssid == ssid {
      assert multiset(rest + [last]) == multiset(rest) + multiset{last};
    } else {
      assert rest + [] == rest;
    }
  }

  lemma SsidGroupStepOrder(prefix: seq<ScanResult>, last: ScanResult, ssid: string, rest: seq<ScanResult>)
    requires Subsequence(rest, prefix)
    ensures Subsequence(rest + if last.ssid == ssid then [last] else [], prefix + [last])
  {
    var scans, g := prefix + [last], rest + if last.ssid == ssid then [last] else [];
    assert scans[..|scans| - 1] == prefix && scans[|scans| - 1] == last;
    if last.ssid == ssid {
      assert g[..|g| - 1] == rest && g[|g| - 1] == last;
    } else {
      assert g == rest;
    }
  }

  /** filter(non-empty SSID) then groupingBy(SSID): the groups partition the batch's scans with
      a non-empty SSID, each group keeping its scans, with their multiplicity, in input order. */
  function GroupBySsid(scans: seq<ScanResult>): (m: map<string, seq<ScanResult>>)
    ensures forall s | s in scans && s.ssid != "" :: s.ssid in m && s in m[s.ssid]
    ensures forall ssid | ssid in m :: ssid != "" && m[ssid] != []
    ensures forall ssid | ssid in m :: forall s | s in m[ssid] :: s in scans && s.ssid == ssid
    ensures forall ssid, s | ssid in m :: multiset(m[ssid])[s] == if s.ssid == ssid then multiset(scans)[s] else 0
    ensures forall ssid | ssid in m :: Subsequence(m[ssid], scans)
  {
    GroupsAreSsidGroups(scans);
    map ssid | ssid in SsidsOf(scans) :: SsidGroup(scans, ssid)
  }

  /** The non-empty SSIDs of the batch. */
  function SsidsOf(scans: seq<ScanResult>): set<string>
  {
    set s | s in scans && s.ssid != "" :: s.ssid
  }

  lemma GroupsAreSsidGroups(scans: seq<ScanResult>)
    ensures forall ssid | ssid in SsidsOf(scans) :: SsidGroup(scans, ssid) != []
    ensures forall ssid, s :: multiset(SsidGroup(scans, ssid))[s] == if s.ssid == ssid then multiset(scans)[s] else 0
  {
    forall ssid
      ensures forall s :: multiset(SsidGroup(scans, ssid))[s] == if s.ssid == ssid then multiset(scans)[s] else 0
    {
      SsidGroupCounts(scans, ssid);
    }
    forall ssid | ssid in SsidsOf(scans)
      ensures SsidGroup(scans, ssid) != []
    {
      var s :| s in scans && s.ssid != "" && s.ssid == ssid;
      assert s in SsidGroup(scans, ssid);
    }
  }

  /** GroupBySsid's groups are the SsidGroups of the batch's non-empty SSIDs. */
  lemma GroupBySsidGroups(scans: seq<ScanResult>)
    ensures GroupBySsid(scans).Keys == SsidsOf(scans)
    ensures forall ssid | ssid in GroupBySsid(scans) :: GroupBySsid(scans)[ssid] == SsidGroup(scans, ssid)
  {
  }

  // ---------------------------------------------------------------------------------------
  // Facts the method's proof uses

  /** A scan is in ScansForKey exactly when it is one of the scans and is filed under the key. */
  lemma {:induction false} ScansForKeyMembership(inputs: Inputs, scans: seq<ScanResult>, key: Key, s: ScanResult)
    ensures s in ScansForKey(inputs, scans, key) <==> s in scans && FiledUnder(inputs, s, key)
    decreases |scans|
  {
    if scans != [] {
      var prefix := scans[..|scans| - 1];
      ScansForKeyMembership(inputs, prefix, key, s);
      assert scans == prefix + [scans[|scans| - 1]];
    }
  }

  /** Filtering one SSID's group first does not change a key of that SSID. */
  lemma {:induction false} ScansForKeyOfGroup(inputs: Inputs, scans: seq<ScanResult>, key: Key)
    ensures ScansForKey(inputs, SsidGroup(scans, key.ssid), key) == ScansForKey(inputs, scans, key)
    decreases |scans|
  {
    if scans != [] {
      var prefix, last := scans[..|scans| - 1], scans[|scans| - 1];
      ScansForKeyOfGroup(inputs, prefix, key);
      assert scans[..|scans| - 1] == prefix;
      if last.ssid == key.ssid {
        var g := SsidGroup(prefix, key.ssid) + [last];
        assert SsidGroup(scans, key.ssid) == g;
        assert g[..|g| - 1] == SsidGroup(prefix, key.ssid) && g[|g| - 1] == last;
      } else {
        assert SsidGroup(scans, key.ssid) == SsidGroup(prefix, key.ssid);
        assert !FiledUnder(inputs, last, key);
      }
    }
  }

  /** Some scan of the list advertises t, scanning from the left as the in-range loop does. */
  predicate AnyAdvertises(scans: seq<ScanResult>, t: Security)
    decreases |scans|
  {
    scans != [] && (AnyAdvertises(scans[..|scans| - 1], t) || t in SecurityTypesFromScanResult(scans[|scans| - 1]))
  }

  lemma {:induction false} AnyAdvertisesIffSome(scans: seq<ScanResult>, t: Security)
    ensures AnyAdvertises(scans, t) <==> exists s :: s in scans && t in SecurityTypesFromScanResult(s)
    decreases |scans|
  {
    if scans != [] {
      var prefix := scans[..|scans| - 1];
      AnyAdvertisesIffSome(prefix, t);
      assert scans == prefix + [scans[|scans| - 1]];
    }
  }

  /** The in-range flags computed over one SSID's group are those over the whole batch. */
  lemma InRangeOfGroup(scans: seq<ScanResult>, ssid: string, group: seq<ScanResult>, t: Security)
    requires forall s :: s in group <==> s in scans && s.ssid == ssid
    ensures InRange(scans, ssid, t) <==> AnyAdvertises(group, t)
  {
    AnyAdvertisesIffSome(group, t);
  }

  /** A key that collects some scan has a non-empty SSID seen in the batch and is a candidate key. */
  lemma KeyOfNonEmpty(inputs: Inputs, k: Key)
    requires ScansForKey(inputs, inputs.scanResults, k) != []
    ensures k.ssid != "" && k.ssid in SsidsOf(inputs.scanResults)
    ensures k in CandidateKeys(inputs.scanResults)
  {
    var s := ScansForKey(inputs, inputs.scanResults, k)[0];
    ScansForKeyMembership(inputs, inputs.scanResults, k, s);
    assert k == Key(s.ssid, k.security) && k.security in AllSecurityTypes;
  }

  /** A map whose entries are exactly the keys that collect some scan, each with its scans,
      is the specification map. */
  lemma IsScanResultsByKey(inputs: Inputs, r: map<Key, seq<ScanResult>>)
    requires forall k :: k in r <==> ScansForKey(inputs, inputs.scanResults, k) != []
    requires forall k | k in r :: r[k] == ScansForKey(inputs, inputs.scanResults, k)
    ensures r == ScanResultsByKey(inputs)
  {
    forall k | ScansForKey(inputs, inputs.scanResults, k) != []
      ensures k in CandidateKeys(inputs.scanResults)
    {
      KeyOfNonEmpty(inputs, k);
    }
    var expected := ScanResultsByKey(inputs);
    assert r.Keys == expected.Keys;
  }

  /** The specification map holds exactly the keys that collect some scan, each with its scans. */
  lemma ScanResultsByKeyEntries(inputs: Inputs)
    ensures forall k :: k in ScanResultsByKey(inputs) <==> ScansForKey(inputs, inputs.scanResults, k) != []
    ensures forall k | k in ScanResultsByKey(inputs) :: ScanResultsByKey(inputs)[k] == ScansForKey(inputs, inputs.scanResults, k)
  {
    forall k | ScansForKey(inputs, inputs.scanResults, k) != []
      ensures k in CandidateKeys(inputs.scanResults)
    {
      KeyOfNonEmpty(inputs, k);
    }
  }

  /** The map built so far holds, for the SSIDs in `done`, exactly the specification's entries. */
  ghost predicate AgreesOn(inputs: Inputs, r: map<Key, seq<ScanResult>>, done: set<string>)
  {
    forall k :: (k in r <==> k.ssid in done && ScansForKey(inputs, inputs.scanResults, k) != [])
             && (k in r ==> r[k] == ScansForKey(inputs, inputs.scanResults, k))
  }

  /** Processing one more SSID's group extends the agreement to that SSID. */
  lemma AgreesOnAnotherSsid(inputs: Inputs, before: map<Key, seq<ScanResult>>, r: map<Key, seq<ScanResult>>,
      done: set<string>, ssid: string)
    requires AgreesOn(inputs, before, done) && ssid !in done
    requires forall k: Key | k.ssid != ssid :: (k in r <==> k in before) && (k in r ==> r[k] == before[k])
    requires forall k: Key | k.ssid == ssid ::
      var forGroup := ScansForKey(inputs, SsidGroup(inputs.scanResults, ssid), k);
      (k in r <==> forGroup != []) && (k in r ==> r[k] == forGroup)
    ensures AgreesOn(inputs, r, done + {ssid})
  {
    forall k: Key | k.ssid == ssid
      ensures ScansForKey(inputs, SsidGroup(inputs.scanResults, ssid), k) == ScansForKey(inputs, inputs.scanResults, k)
    {
      ScansForKeyOfGroup(inputs, inputs.scanResults, k);
    }
  }

  lemma ChosenAppendStep(inputs: Inputs, prefix: seq<ScanResult>, scan: ScanResult, key: Key)
    ensures ScansForKey(inputs, prefix + [scan], key)
         == ScansForKey(inputs, prefix, key) + if FiledUnder(inputs, scan, key) then [scan] else []
  {
    assert (prefix + [scan])[..|prefix|] == prefix;
  }

  // ---------------------------------------------------------------------------------------
  // The algorithm

  /** The loop that appends one scan to the list of each chosen key, creating lists on first use. */
  method AddToKeys(scanResultsByKey: map<Key, seq<ScanResult>>, ssid: string, chosen: seq<Security>, scan: ScanResult)
    returns (r: map<Key, seq<ScanResult>>)
    requires Distinct(chosen)
    ensures forall k: Key | k.ssid != ssid || k.security !in chosen ::
      (k in r <==> k in scanResultsByKey) && (k in r ==> r[k] == scanResultsByKey[k])
    ensures forall k: Key | k.ssid == ssid && k.security in chosen ::
      k in r && r[k] == (if k in scanResultsByKey then scanResultsByKey[k] else []) + [scan]
  {
    r := scanResultsByKey;
    for j := 0 to |chosen|
      invariant forall k: Key | k.ssid != ssid || k.security !in chosen[..j] ::
        (k in r <==> k in scanResultsByKey) && (k in r ==> r[k] == scanResultsByKey[k])
      invariant forall k: Key | k.ssid == ssid && k.security in chosen[..j] ::
        k in r && r[k] == (if k in scanResultsByKey then scanResultsByKey[k] else []) + [scan]
    {
      var key := Key(ssid, chosen[j]);
      assert chosen[..j + 1] == chosen[..j] + [chosen[j]];
      assert chosen[j] !in chosen[..j];
      if key !in r {
        r := r[key := []];
      }
      r := r[key := r[key] + [scan]];
    }
    assert chosen[..|chosen|] == chosen;
  }

  /** The first loop over one SSID's scans: which types some scan of the group advertises,
      judged on the unfiltered classification. */
  method InRangeFlags(group: seq<ScanResult>) returns (pskInRange: bool, saeInRange: bool, oweInRange: bool, openInRange: bool)
    ensures pskInRange == AnyAdvertises(group, Psk) && saeInRange == AnyAdvertises(group, Sae)
    ensures oweInRange == AnyAdvertises(group, Owe) && openInRange == AnyAdvertises(group, Open)
  {
    pskInRange, saeInRange, oweInRange, openInRange := false, false, false, false;
    for i := 0 to |group|
      invariant pskInRange == AnyAdvertises(group[..i], Psk) && saeInRange == AnyAdvertises(group[..i], Sae)
      invariant oweInRange == AnyAdvertises(group[..i], Owe) && openInRange == AnyAdvertises(group[..i], Open)
    {
      assert group[..i + 1][..i] == group[..i];
      var securityTypes := SecurityTypesFromScanResult(group[i]);
      if Psk in securityTypes { pskInRange := true; }
      if Sae in securityTypes { saeInRange := true; }
      if Owe in securityTypes { oweInRange := true; }
      if Open in securityTypes { openInRange := true; }
    }
    assert group[..|group|] == group;
  }

  /** The loop over one SSID's scans: filter each scan's types, apply the rules, and append
      the scan under every chosen key. */
  method MapGroupToKeys(
      ghost inputs: Inputs,
      scanResultsByKey: map<Key, seq<ScanResult>>,
      ssid: string,
      group: seq<ScanResult>,
      info: GroupInfo,
      chooseSingleSecurity: bool,
      isWpa3SaeSupported: bool,
      isWpa3SuiteBSupported: bool,
      isEnhancedOpenSupported: bool)
    returns (r: map<Key, seq<ScanResult>>)
    requires ssid != "" && forall s | s in group :: s.ssid == ssid
    requires info == GroupInfoOf(inputs, ssid) && inputs.chooseSingleSecurity == chooseSingleSecurity
    requires inputs.gates == Gates(isWpa3SaeSupported, isWpa3SuiteBSupported, isEnhancedOpenSupported)
    requires forall k: Key | k.ssid == ssid :: k !in scanResultsByKey
    ensures forall k: Key | k.ssid != ssid ::
      (k in r <==> k in scanResultsByKey) && (k in r ==> r[k] == scanResultsByKey[k])
    ensures forall k: Key | k.ssid == ssid ::
      (k in r <==> ScansForKey(inputs, group, k) != []) && (k in r ==> r[k] == ScansForKey(inputs, group, k))
  {
    r := scanResultsByKey;
    for i := 0 to |group|
      invariant forall k: Key | k.ssid != ssid :: (k in r <==> k in scanResultsByKey)
                                             && (k in scanResultsByKey ==> r[k] == scanResultsByKey[k])
      invariant forall k: Key | k.ssid == ssid :: (k in r <==> ScansForKey(inputs, group[..i], k) != [])
                                             && (k in r ==> r[k] == ScansForKey(inputs, group[..i], k))
    {
      var scan := group[i];
      assert scan in group && scan.ssid == ssid && ssid != "";
      assert group[..i + 1] == group[..i] + [scan];
      var securityTypes := SecurityTypesFromScanResult(scan);
      // Drop every type whose feature gate is off.
      if !isWpa3SaeSupported {
        securityTypes := RemoveFirst(securityTypes, Sae);
      }
      if !isWpa3SuiteBSupported {
        securityTypes := RemoveFirst(securityTypes, EapSuiteB);
      }
      if !isEnhancedOpenSupported {
        securityTypes := RemoveFirst(securityTypes, Owe);
      }
      assert securityTypes == FilteredSecurityTypes(inputs, scan);
      var choice := ChooseSecurityTypes(securityTypes, chooseSingleSecurity, info);
      if choice.Skip? {
        forall k ensures ScansForKey(inputs, group[..i + 1], k) == ScansForKey(inputs, group[..i], k) {
          ChosenAppendStep(inputs, group[..i], scan, k);
        }
        continue;
      }
      var chosen := choice.types;
      assert chosen == ChosenSecurityTypes(inputs, scan);
      r := AddToKeys(r, ssid, chosen, scan);
      forall k: Key | k.ssid == ssid
        ensures ScansForKey(inputs, group[..i + 1], k)
             == ScansForKey(inputs, group[..i], k) + if k.security in chosen then [scan] else []
      {
        ChosenAppendStep(inputs, group[..i], scan, k);
      }
    }

    assert group[..|group|] == group;
  }

  /** The body of the loop over SSIDs: the four config-exists flags, the four in-range flags,
      then every scan of the group. */
  method MapSsidToKeys(
      ghost inputs: Inputs,
      scanResultsByKey: map<Key, seq<ScanResult>>,
      ghost done: set<string>,
      ssid: string,
      group: seq<ScanResult>,
      configs: map<Key, WifiConfiguration>,
      chooseSingleSecurity: bool,
      isWpa3SaeSupported: bool,
      isWpa3SuiteBSupported: bool,
      isEnhancedOpenSupported: bool)
    returns (r: map<Key, seq<ScanResult>>)
    requires ssid != "" && ssid !in done && group == SsidGroup(inputs.scanResults, ssid)
    requires inputs == Inputs(inputs.scanResults, chooseSingleSecurity, configs,
      Gates(isWpa3SaeSupported, isWpa3SuiteBSupported, isEnhancedOpenSupported))
    requires AgreesOn(inputs, scanResultsByKey, done)
    ensures AgreesOn(inputs, r, done + {ssid})
  {
    var pskConfigExists := Key(ssid, Psk) in configs;
    var saeConfigExists := Key(ssid, Sae) in configs;
    var openConfigExists := Key(ssid, Open) in configs;
    var oweConfigExists := Key(ssid, Owe) in configs;

    var pskInRange, saeInRange, oweInRange, openInRange := InRangeFlags(group);
    var info := GroupInfo(pskConfigExists, saeConfigExists, openConfigExists, oweConfigExists,
      pskInRange, saeInRange, oweInRange, openInRange);
    InRangeOfGroup(inputs.scanResults, ssid, group, Psk);
    InRangeOfGroup(inputs.scanResults, ssid, group, Sae);
    InRangeOfGroup(inputs.scanResults, ssid, group, Owe);
    InRangeOfGroup(inputs.scanResults, ssid, group, Open);
    assert info == GroupInfoOf(inputs, ssid);

    r := MapGroupToKeys(inputs, scanResultsByKey, ssid, group, info, chooseSingleSecurity,
      isWpa3SaeSupported, isWpa3SuiteBSupported, isEnhancedOpenSupported);
    AgreesOnAnotherSsid(inputs, scanResultsByKey, r, done, ssid);
  }

  /** The stream at the head of mapScanResultsToKey: drop empty SSIDs, group the rest by SSID. */
  method GroupScans(scanResults: seq<ScanResult>) returns (scanResultsBySsid: map<string, seq<ScanResult>>)
    ensures scanResultsBySsid.Keys == SsidsOf(scanResults)
    ensures forall ssid | ssid in scanResultsBySsid :: scanResultsBySsid[ssid] == SsidGroup(scanResults, ssid)
  {
    scanResultsBySsid := GroupBySsid(scanResults);
    GroupBySsidGroups(scanResults);
  }

  /** mapScanResultsToKey. */
  method MapScanResultsToKey(
      scanResults: seq<ScanResult>,
      chooseSingleSecurity: bool,
      wifiConfigsByKey: Option<map<Key, WifiConfiguration>>,
      isWpa3SaeSupported: bool,
      isWpa3SuiteBSupported: bool,
      isEnhancedOpenSupported: bool)
    returns (scanResultsByKey: map<Key, seq<ScanResult>>)
    ensures scanResultsByKey == ScanResultsByKey(Inputs(scanResults, chooseSingleSecurity,
      ConfigsOrEmpty(wifiConfigsByKey), Gates(isWpa3SaeSupported, isWpa3SuiteBSupported, isEnhancedOpenSupported)))
    ensures wifiConfigsByKey == None ==> scanResultsByKey == ScanResultsByKey(Inputs(scanResults,
      chooseSingleSecurity, map[], Gates(isWpa3SaeSupported, isWpa3SuiteBSupported, isEnhancedOpenSupported)))
  {
    var configs := if wifiConfigsByKey == None then map[] else wifiConfigsByKey.value;
    ghost var inputs := Inputs(scanResults, chooseSingleSecurity, configs,
      Gates(isWpa3SaeSupported, isWpa3SuiteBSupported, isEnhancedOpenSupported));
    var scanResultsBySsid := GroupScans(scanResults);
    scanResultsByKey := MapGroupsToKeys(inputs, scanResultsBySsid, configs, chooseSingleSecurity,
      isWpa3SaeSupported, isWpa3SuiteBSupported, isEnhancedOpenSupported);
    AgreesOnEverySsid(inputs, scanResultsByKey);
    assert configs == ConfigsOrEmpty(wifiConfigsByKey);
  }

  /** The loop over the SSID groups, visited in an unspecified order as HashMap's keySet is. */
  method MapGroupsToKeys(
      ghost inputs: Inputs,
      scanResultsBySsid: map<string, seq<ScanResult>>,
      configs: map<Key, WifiConfiguration>,
      chooseSingleSecurity: bool,
      isWpa3SaeSupported: bool,
      isWpa3SuiteBSupported: bool,
      isEnhancedOpenSupported: bool)
    returns (scanResultsByKey: map<Key, seq<ScanResult>>)
    requires inputs == Inputs(inputs.scanResults, chooseSingleSecurity, configs,
      Gates(isWpa3SaeSupported, isWpa3SuiteBSupported, isEnhancedOpenSupported))
    requires scanResultsBySsid.Keys == SsidsOf(inputs.scanResults)
    requires forall ssid | ssid in scanResultsBySsid :: scanResultsBySsid[ssid] == SsidGroup(inputs.scanResults, ssid)
    ensures AgreesOn(inputs, scanResultsByKey, SsidsOf(inputs.scanResults))
  {
    scanResultsByKey := map[];
    var remaining := scanResultsBySsid.Keys;
    ghost var done: set<string> := {};
    while remaining != {}
      invariant remaining + done == scanResultsBySsid.Keys && remaining !! done
      invariant AgreesOn(inputs, scanResultsByKey, done)
      decreases remaining
    {
      var ssid :| ssid in remaining;
      scanResultsByKey := MapSsidToKeys(inputs, scanResultsByKey, done, ssid, scanResultsBySsid[ssid], configs,
        chooseSingleSecurity, isWpa3SaeSupported, isWpa3SuiteBSupported, isEnhancedOpenSupported);
      remaining := remaining - {ssid};
      done := done + {ssid};
    }
  }

  /** Once every SSID of the batch is done, the map is the specification map. */
  lemma AgreesOnEverySsid(inputs: Inputs, r: map<Key, seq<ScanResult>>)
    requires AgreesOn(inputs, r, SsidsOf(inputs.scanResults))
    ensures r == ScanResultsByKey(inputs)
  {
    forall k | ScansForKey(inputs, inputs.scanResults, k) != []
      ensures k.ssid in SsidsOf(inputs.scanResults)
    {
      KeyOfNonEmpty(inputs, k);
    }
    IsScanResultsByKey(inputs, r);
  }
}
