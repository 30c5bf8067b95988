/** The entities the mapping works on: security types, scan results, saved configurations
    and WifiEntry keys. */
module Wifi {
  import opened Wrappers

  /** WifiEntry's SECURITY_* constants; `Open` is SECURITY_NONE. */
  datatype Security = Open | Wep | Psk | Eap | Owe | Sae | EapSuiteB

  const AllSecurityTypes: set<Security> := {Open, Wep, Psk, Eap, Owe, Sae, EapSuiteB}

  /** One beacon of a scan: its SSID, its capability string (null when absent) and its RSSI. */
  datatype ScanResult = ScanResult(ssid: string, capabilities: Option<string>, level: int)

  /** The parts of a saved WifiConfiguration the resolver reads: the allowedKeyManagement
      bits it tests and whether wepKeys[0] is non-null. */
  datatype WifiConfiguration = WifiConfiguration(
    sae: bool, wpaPsk: bool, suiteB192: bool, wpaEap: bool, ieee8021x: bool, owe: bool,
    wepKey0Present: bool)

  /** A standard WifiEntry key, the pair that ssidAndSecurityToStandardWifiEntryKey encodes. */
  datatype Key = Key(ssid: string, security: Security)

  predicate Distinct<T(==)>(s: seq<T>)
  {
    forall i, j :: 0 <= i < j < |s| ==> s[i] != s[j]
  }

  /** `a` is `b` with some elements left out, the rest kept in order. */
  predicate Subsequence<T(==)>(a: seq<T>, b: seq<T>)
    decreases |b|
  {
    if b == [] then a == []
    else
      Subsequence(a, b[..|b| - 1])
      || (a != [] && a[|a| - 1] == b[|b| - 1] && Subsequence(a[..|a| - 1], b[..|b| - 1]))
  }
}
