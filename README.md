# WifiTrackerLib security resolution and scan-to-key mapping, in Dafny

This project models the decision logic in WifiTrackerLib's `Utils.java`, which turns a batch
of Wi-Fi scan results into WifiEntry keys, and proves properties of that model:

- `getSecurityTypesFromScanResult` classifies a beacon's capability string into one or two
  security types. It is a first-match chain of substring tests: `"OWE_TRANSITION"` contains
  `"OWE"` and `"EAP_SUITE_B_192"` contains `"EAP"`.
- `getSecurityTypeFromWifiConfiguration` gives a saved configuration its single security type.
  The precedence is SAE > WPA_PSK > SUITE_B_192 > (WPA_EAP or IEEE8021X) > OWE > WEP key 0 >
  NONE.
- `getBestScanResultByLevel` returns the scan with the strongest signal, or nothing for an
  empty list.
- `mapScanResultsToKey` does the following:
  - groups scans by non-empty SSID;
  - computes each SSID's four "config exists" flags and four "in range" flags;
  - filters each scan's types by the three feature gates (SAE, Suite-B, enhanced open);
  - applies the single-selection rule chain or the multi-key rule;
  - appends the scan to the list of every chosen (SSID, security) key.

Modules, one file each:

| module | file | contents |
|---|---|---|
| `Wrappers` | `wrappers.dfy` | `Option` |
| `Substrings` | `substrings.dfy` | `Contains`, which models `String.contains`, and facts about it |
| `Wifi` | `wifi.dfy` | `Security` (`Open` is `SECURITY_NONE`), `ScanResult`, `WifiConfiguration`, `Key` |
| `ScanSecurity` | `scan_security.dfy` | the beacon classifier and a per-type reference table for it |
| `ConfigSecurity` | `config_security.dfy` | the configuration resolver |
| `BestScan` | `best_scan.dfy` | the strongest-signal choice |
| `EntryKeys` | `entry_keys.dfy` | the specification function plus the imperative method |
| `EntryKeyProperties` | `entry_key_properties.dfy` | what the returned map satisfies |

The file `entry_keys.dfy` has two parts:

- `ScanResultsByKey` states, key by key, which scans each key collects, in input order.
- `MapScanResultsToKey` is the imperative algorithm, with the same nesting as the Java:
  - `GroupScans` does the stream's filter and `groupingBy`. Its result is stated in terms of
    `SsidGroup`, whose contract and the lemma `SsidGroupCounts` carry the grouping guarantee
    (membership, multiplicity, input order); `GroupBySsid`'s contract states the same partition
    for the map as a whole;
  - the outer loop (`MapGroupsToKeys`) visits SSIDs in an unspecified order (`:|`, standing for HashMap's keySet order);
  - a loop sets the in-range flags;
  - a loop over the SSID's scans removes unsupported types, applies the rules and skips dropped scans;
  - an inner loop appends to the map, creating a list on first use.

The method is proved to return exactly `ScanResultsByKey`. `EntryKeyProperties` proves the
promised properties about that function.

In multi-key mode a scan whose filtered list is empty lands under no key. An `[SAE]` beacon
with SAE unsupported is an example: lines 180-188 of `Utils.java` remove its only type, and
line 261 then adds nothing. `EmptyFilteredUnderNoKey` states this.

## Model

| member | source | states |
|---|---|---|
| `ScanSecurity.SecurityTypesFromScanResult` | libs/WifiTrackerLib/src/com/android/wifitrackerlib/Utils.java:65-91 | the result is one or two distinct types; a two-type result is [PSK, SAE] or [NONE, OWE] |
| `ScanSecurity.ClassificationMatchesAdvertised` | libs/WifiTrackerLib/src/com/android/wifitrackerlib/Utils.java:65-91 | a type is in the classification exactly when the per-type reference table says the capability string advertises it; null capabilities advertise only NONE |
| `ScanSecurity.NothingRecognisedIsOpen` | libs/WifiTrackerLib/src/com/android/wifitrackerlib/Utils.java:67-88 | null capabilities (lines 67-68), or a string without PSK, SAE, OWE, WEP or EAP (the final `else`, lines 87-88), classify as exactly [NONE] |
| `ScanSecurity.EmptyCapabilitiesIsOpen` | libs/WifiTrackerLib/src/com/android/wifitrackerlib/Utils.java:87-88 | an empty capability string classifies as [NONE] |
| `ScanSecurity.PskAndSaeWin` | libs/WifiTrackerLib/src/com/android/wifitrackerlib/Utils.java:69-71 | a string containing both "PSK" and "SAE" gives exactly [PSK, SAE], whatever else it contains |
| `ScanSecurity.OweTransitionIsOpenAndOwe` | libs/WifiTrackerLib/src/com/android/wifitrackerlib/Utils.java:72-76 | a string with "OWE_TRANSITION", and not both PSK and SAE, gives [NONE, OWE], never [OWE] |
| `ScanSecurity.OweScenario` | libs/WifiTrackerLib/src/com/android/wifitrackerlib/Utils.java:75-76 | "[OWE]" classifies as [OWE] |
| `ScanSecurity.OweTransitionScenario` | libs/WifiTrackerLib/src/com/android/wifitrackerlib/Utils.java:72-74 | "[OWE_TRANSITION]" classifies as [NONE, OWE] |
| `ScanSecurity.SaeScenario` | libs/WifiTrackerLib/src/com/android/wifitrackerlib/Utils.java:79-80 | "[SAE]" classifies as [SAE] |
| `ScanSecurity.PskScenario` | libs/WifiTrackerLib/src/com/android/wifitrackerlib/Utils.java:81-82 | "[PSK]" classifies as [PSK] |
| `Substrings.ContainsIffOccurs` | libs/WifiTrackerLib/src/com/android/wifitrackerlib/Utils.java:69-86 | the containment test used by the chain holds exactly when the token occurs at some position of the string |
| `Substrings.ContainsPrefixOf` | libs/WifiTrackerLib/src/com/android/wifitrackerlib/Utils.java:72-86 | a string that contains a token contains every prefix of it, so "OWE_TRANSITION" implies "OWE" and "EAP_SUITE_B_192" implies "EAP" |
| `ConfigSecurity.SecurityTypeFromWifiConfiguration` | libs/WifiTrackerLib/src/com/android/wifitrackerlib/Utils.java:95-113 | for each type, an iff condition on the key-management bits that gives the precedence SAE > WPA_PSK > SUITE_B_192 > (WPA_EAP or IEEE8021X) > OWE > WEP key 0 > NONE; SAE whenever the SAE bit is set |
| `BestScan.MaxLevelIndex` | libs/WifiTrackerLib/src/com/android/wifitrackerlib/Utils.java:61 | the index is in range, its level is at least every level, and every earlier level is strictly lower: Collections.max returns the first maximal element |
| `BestScan.BestScanResultByLevel` | libs/WifiTrackerLib/src/com/android/wifitrackerlib/Utils.java:58-62 | none exactly for the empty list; otherwise an element of the list whose level is at least every level, with no element of equal level before it |
| `Substrings.Contains` | libs/WifiTrackerLib/src/com/android/wifitrackerlib/Utils.java:69-86 | definition with no contract: `String.contains`, as a token at the front of the string or, recursively, in its tail; `ContainsIffOccurs` relates it to positions |
| `EntryKeys.ConfigsOrEmpty` | libs/WifiTrackerLib/src/com/android/wifitrackerlib/Utils.java:138-140 | definition with no contract: a null configuration map is replaced by an empty one; `MapScanResultsToKey`'s second ensures states the consequence |
| `EntryKeys.IsSupported` | libs/WifiTrackerLib/src/com/android/wifitrackerlib/Utils.java:126-128 | definition with no contract: SAE needs the SAE gate, EAP_SUITE_B the Suite-B gate, OWE the enhanced-open gate; every other type is always supported |
| `EntryKeys.IsSae` | libs/WifiTrackerLib/src/com/android/wifitrackerlib/Utils.java:190-191 | definition with no contract: SAE in the filtered list and PSK not |
| `EntryKeys.IsPsk` | libs/WifiTrackerLib/src/com/android/wifitrackerlib/Utils.java:192-193 | definition with no contract: PSK in the filtered list and SAE not |
| `EntryKeys.IsPskSaeTransition` | libs/WifiTrackerLib/src/com/android/wifitrackerlib/Utils.java:194-195 | definition with no contract: both PSK and SAE in the filtered list |
| `EntryKeys.IsOwe` | libs/WifiTrackerLib/src/com/android/wifitrackerlib/Utils.java:196-197 | definition with no contract: OWE in the filtered list and NONE not |
| `EntryKeys.IsOweTransition` | libs/WifiTrackerLib/src/com/android/wifitrackerlib/Utils.java:198-199 | definition with no contract: both NONE and OWE in the filtered list |
| `EntryKeys.IsOpen` | libs/WifiTrackerLib/src/com/android/wifitrackerlib/Utils.java:200-201 | definition with no contract: NONE in the filtered list and OWE not |
| `EntryKeys.ScanResultsByKey` | libs/WifiTrackerLib/src/com/android/wifitrackerlib/Utils.java:131-280 | definition with no contract: the specification map, each key that collects some scan with the scans filed under it in input order; `MapScanResultsToKey` is proved to return it and `EntryKeyProperties` proves its properties |
| `EntryKeys.InRange` | libs/WifiTrackerLib/src/com/android/wifitrackerlib/Utils.java:161-173 | definition with no contract: some beacon of the batch with this SSID advertises the type, judged on its unfiltered classification; `InRangeOfGroup` ties it to the per-group loop |
| `EntryKeys.GroupInfoOf` | libs/WifiTrackerLib/src/com/android/wifitrackerlib/Utils.java:147-174 | definition with no contract: the four config-exists flags (lines 147-154) as key lookups in the configuration map, and the four in-range flags (lines 156-174) as `InRange`; every rule lemma in `EntryKeyProperties` is stated over these flags |
| `EntryKeys.FiledUnder` | libs/WifiTrackerLib/src/com/android/wifitrackerlib/Utils.java:270-276 | definition with no contract: a scan is appended to a key's list when its SSID is non-empty (the filter at line 142) and is the key's SSID, and the key's type is one of its chosen types |
| `EntryKeys.ScansForKey` | libs/WifiTrackerLib/src/com/android/wifitrackerlib/Utils.java:270-276 | definition with no contract: the scans filed under one key, in input order; `ScansForKeyMembership` and `ScansForKeyIsSubsequence` state its properties |
| `EntryKeys.RemoveFirst` | libs/WifiTrackerLib/src/com/android/wifitrackerlib/Utils.java:180-188 | `List.remove(Object)`: the length drops by one exactly when the type is present; other types are kept; on a list without repeats the removed type is gone and no repeats appear |
| `EntryKeys.SupportedSecurityTypes` | libs/WifiTrackerLib/src/com/android/wifitrackerlib/Utils.java:179-188 | a type survives the gate filter exactly when it was classified and its gate, if any, is on |
| `EntryKeys.FilteredSecurityTypes` | libs/WifiTrackerLib/src/com/android/wifitrackerlib/Utils.java:177-188 | a scan's filtered list has no repeats and holds exactly its supported classified types |
| `EntryKeys.ChooseSecurityTypes` | libs/WifiTrackerLib/src/com/android/wifitrackerlib/Utils.java:190-267 | the types the rules add, other than PSK, come from the filtered list; the chosen list has no repeats |
| `EntryKeys.ChosenSecurityTypes` | libs/WifiTrackerLib/src/com/android/wifitrackerlib/Utils.java:176-267 | a scan's chosen types have no repeats, and every one other than PSK is in its filtered list |
| `EntryKeys.SsidGroup` | libs/WifiTrackerLib/src/com/android/wifitrackerlib/Utils.java:141-143 | a group holds exactly the batch's scans with that SSID, and is a subsequence of the batch (input order kept) |
| `EntryKeys.SsidGroupCounts` | libs/WifiTrackerLib/src/com/android/wifitrackerlib/Utils.java:141-143 | a group holds each scan with its SSID exactly as often as the batch does, and nothing else |
| `EntryKeys.GroupBySsid` | libs/WifiTrackerLib/src/com/android/wifitrackerlib/Utils.java:141-143 | the groups partition the batch's scans with a non-empty SSID: every such scan is in the group of its SSID; every group is non-empty, has a non-empty SSID and holds only batch scans with that SSID; each holds every such scan with its multiplicity, in input order |
| `EntryKeys.GroupScans` | libs/WifiTrackerLib/src/com/android/wifitrackerlib/Utils.java:141-143 | the grouping step of the method: one group per non-empty SSID of the batch, equal to that SSID's group |
| `EntryKeys.ScansForKeyMembership` | libs/WifiTrackerLib/src/com/android/wifitrackerlib/Utils.java:270-276 | a scan is in a key's list exactly when it is one of the scans and is filed under that key |
| `EntryKeys.InRangeOfGroup` | libs/WifiTrackerLib/src/com/android/wifitrackerlib/Utils.java:156-174 | an in-range flag counted over one SSID's group equals "some scan of the batch with that SSID advertises the type", judged on the unfiltered classification |
| `EntryKeys.ScanResultsByKeyEntries` | libs/WifiTrackerLib/src/com/android/wifitrackerlib/Utils.java:144-280 | the specification map holds exactly the keys that collect some scan, each with the scans filed under it in input order |
| `EntryKeys.AddToKeys` | libs/WifiTrackerLib/src/com/android/wifitrackerlib/Utils.java:270-276 | each chosen key of the SSID ends with the scan appended (to an empty list if new); every other key is unchanged |
| `EntryKeys.InRangeFlags` | libs/WifiTrackerLib/src/com/android/wifitrackerlib/Utils.java:156-174 | each flag is set exactly when some scan of the group advertises that type |
| `EntryKeys.MapGroupToKeys` | libs/WifiTrackerLib/src/com/android/wifitrackerlib/Utils.java:176-277 | keys of other SSIDs are unchanged; each key of this SSID holds exactly the group's scans filed under it, in order, and is present exactly when that list is non-empty |
| `EntryKeys.MapSsidToKeys` | libs/WifiTrackerLib/src/com/android/wifitrackerlib/Utils.java:146-277 | after one more SSID, the map agrees with the specification map on every key of the SSIDs done so far |
| `EntryKeys.MapScanResultsToKey` | libs/WifiTrackerLib/src/com/android/wifitrackerlib/Utils.java:131-280 | the method returns exactly the specification map, whatever order the SSIDs are visited in; a null config map gives the result of an empty one |
| `EntryKeys.MapGroupsToKeys` | libs/WifiTrackerLib/src/com/android/wifitrackerlib/Utils.java:146-278 | after the loop over every SSID group, in any order, the map agrees with the specification map on every key of every SSID of the batch |
| `EntryKeys.AgreesOnEverySsid` | libs/WifiTrackerLib/src/com/android/wifitrackerlib/Utils.java:144-280 | a map that agrees with the specification map on every SSID of the batch is the specification map |
| `EntryKeyProperties.ScansForKeyIsSubsequence` | libs/WifiTrackerLib/src/com/android/wifitrackerlib/Utils.java:270-276 | each key's list is a subsequence of the input batch |
| `EntryKeyProperties.OutputMembership` | libs/WifiTrackerLib/src/com/android/wifitrackerlib/Utils.java:270-276 | a scan is in a key's output list exactly when it is in the batch and the rules file it under that key |
| `EntryKeyProperties.OutputListsWellFormed` | libs/WifiTrackerLib/src/com/android/wifitrackerlib/Utils.java:138-143 | every output key has a non-empty SSID and a non-empty list; each list holds only scans of the batch with the key's SSID, in input order |
| `EntryKeyProperties.EmptyBatch` | libs/WifiTrackerLib/src/com/android/wifitrackerlib/Utils.java:141-146 | an empty batch gives an empty map |
| `EntryKeyProperties.EmptySsidUnderNoKey` | libs/WifiTrackerLib/src/com/android/wifitrackerlib/Utils.java:142 | a scan with an empty SSID appears under no key |
| `EntryKeyProperties.NoUnsupportedKey` | libs/WifiTrackerLib/src/com/android/wifitrackerlib/Utils.java:180-188 | no output key carries SAE, EAP_SUITE_B or OWE when its gate is off |
| `EntryKeyProperties.OutputOfScan` | libs/WifiTrackerLib/src/com/android/wifitrackerlib/Utils.java:270-276 | a scan with a non-empty SSID is under the key (SSID, t) exactly when t is one of its chosen types |
| `EntryKeyProperties.SingleSelectionChoosesAtMostOne` | libs/WifiTrackerLib/src/com/android/wifitrackerlib/Utils.java:203-259 | under single selection a scan gets at most one type, including on the fall-through branch |
| `EntryKeyProperties.SingleSelectionAtMostOneKey` | libs/WifiTrackerLib/src/com/android/wifitrackerlib/Utils.java:203-259 | under single selection a scan appears under at most one key |
| `EntryKeyProperties.PskOnlyRule` | libs/WifiTrackerLib/src/com/android/wifitrackerlib/Utils.java:204-212 | a PSK-only scan is dropped exactly when there is no PSK config, there is an SAE config and SAE is in range; otherwise it lands under PSK only |
| `EntryKeyProperties.PskSaeTransitionRule` | libs/WifiTrackerLib/src/com/android/wifitrackerlib/Utils.java:213-220 | a PSK/SAE transition scan lands under SAE exactly when there is no PSK config and there is an SAE config; under PSK otherwise |
| `EntryKeyProperties.SaeOnlyRule` | libs/WifiTrackerLib/src/com/android/wifitrackerlib/Utils.java:221-231 | an SAE-only scan lands under SAE exactly when there is no PSK config and either an SAE config or no PSK beacon in range; under PSK otherwise |
| `EntryKeyProperties.PureOweNeverAdded` | libs/WifiTrackerLib/src/com/android/wifitrackerlib/Utils.java:232-237 | under single selection a pure OWE scan is under no key, whether it is dropped or falls through with nothing chosen |
| `EntryKeyProperties.OweTransitionRule` | libs/WifiTrackerLib/src/com/android/wifitrackerlib/Utils.java:238-248 | an OWE transition scan lands under OWE exactly when there is an OWE config or no open config; under NONE otherwise |
| `EntryKeyProperties.OpenRule` | libs/WifiTrackerLib/src/com/android/wifitrackerlib/Utils.java:249-256 | an open scan is dropped exactly when OWE is in range and there is an OWE config or no open config; otherwise it lands under NONE only |
| `EntryKeyProperties.OtherTypesRule` | libs/WifiTrackerLib/src/com/android/wifitrackerlib/Utils.java:257-259 | a WEP, EAP or Suite-B scan lands under exactly the types of its filtered list |
| `EntryKeyProperties.MultiKeyRule` | libs/WifiTrackerLib/src/com/android/wifitrackerlib/Utils.java:260-267 | in multi-key mode a scan lands under exactly the types of its filtered list, plus PSK when it is SAE-only |
| `EntryKeyProperties.EmptyFilteredUnderNoKey` | libs/WifiTrackerLib/src/com/android/wifitrackerlib/Utils.java:180-188 | a scan whose filtered list is empty is under no key, in either mode |
| `EntryKeyProperties.OneScanBatch` | libs/WifiTrackerLib/src/com/android/wifitrackerlib/Utils.java:131-280 | a batch of one scan with a non-empty SSID gives one key per chosen type, each listing just that scan |
| `EntryKeyProperties.LoneOweTransitionBeacon` | libs/WifiTrackerLib/src/com/android/wifitrackerlib/Utils.java:238-248 | a lone OWE transition beacon, OWE supported, gives the single key OWE (an OWE config or no open config) or NONE |
| `EntryKeyProperties.LoneSaeBeaconMultiKey` | libs/WifiTrackerLib/src/com/android/wifitrackerlib/Utils.java:260-267 | a lone SAE-only beacon in multi-key mode, SAE supported, gives exactly the keys SAE and PSK |
| `EntryKeyProperties.UnsupportedSaeHidesPsk` | libs/WifiTrackerLib/src/com/android/wifitrackerlib/Utils.java:160-174 | the in-range flags ignore the gates: with SAE unsupported, an SAE config and no PSK config, a PSK beacon and an SAE beacon of one SSID give an empty map |
| `EntryKeyProperties.CafeWithoutConfigs` | libs/WifiTrackerLib/src/com/android/wifitrackerlib/Utils.java:244-245 | "Cafe" with "[OWE_TRANSITION]", OWE supported and nothing saved gives exactly {(Cafe, OWE): [scan]} |
| `EntryKeyProperties.CafeWithOpenConfig` | libs/WifiTrackerLib/src/com/android/wifitrackerlib/Utils.java:246-248 | the same beacon, with an open config and no OWE config, gives exactly {(Cafe, NONE): [scan]} |
| `EntryKeyProperties.NetSaeMultiKey` | libs/WifiTrackerLib/src/com/android/wifitrackerlib/Utils.java:261-267 | "Net" with "[SAE]" in multi-key mode, SAE supported, gives exactly {(Net, SAE): [scan], (Net, PSK): [scan]} |
| `EntryKeyProperties.NetHiddenBySaeConfig` | libs/WifiTrackerLib/src/com/android/wifitrackerlib/Utils.java:204-209 | "[PSK]" and "[SAE]" beacons of "Net", SAE unsupported, with only an SAE config saved, give no key at all |

## Left out

- `getAppLabel` and `getAppLabelForSavedNetwork` (Utils.java:282-324): package-manager lookups with remote-call error handling, which is platform I/O.
- `getAutoConnectDescription`, `getMeteredDescription` and `getSpeedDescription` (Utils.java:326-357): localized-string lookups with no decision logic.
- `getVerboseLoggingDescription` (Utils.java:359-377): it reads a global verbosity flag and joins strings from WifiEntry methods that are not in this model.
- `ssidAndSecurityToStandardWifiEntryKey` is not part of this model. A key is the pair `Key(ssid, security)`, so the model assumes the string encoding is injective.
- HashMap key-set order: the outer loop picks any unvisited SSID. The proof holds for every order, and the result is a map, which has no order.
- `groupingBy` internals: a group is the batch's scans with that SSID, in input order.
- The Android `ScanResult` and `WifiConfiguration` classes are replaced by records:
  - a scan has an SSID, an optional capability string and an unbounded integer level;
  - the level is only compared, never computed, so Java `int` width does not matter;
  - a configuration has the key-management bits the resolver tests and whether `wepKeys[0]` is non-null.
- A null SSID is not modelled separately. `TextUtils.isEmpty` treats it like the empty string, and so does the model.
- The in-place list appends of the result HashMap are modelled as updates of a `map` value.
  No list is shared between keys, so no aliasing is lost.
- `String.contains` works on UTF-16 code units; the model uses Dafny characters. Every token tested is ASCII.
- ScanSecurity.SecurityTypesFromScanResult: its own ensures states only the shape of the result. `ScanSecurity.ClassificationMatchesAdvertised` gives the full per-type statement.
- EntryKeys.ChooseSecurityTypes, EntryKeys.ChosenSecurityTypes: their own ensures state only that chosen types come from the filtered list. The exact rule for each branch is stated per scan by the `EntryKeyProperties.*Rule` lemmas.
