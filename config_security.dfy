/** getSecurityTypeFromWifiConfiguration: the one security type of a saved configuration. */
module ConfigSecurity {
  import opened Wifi

  /** No key-management bit the resolver tests is set. */
  predicate NoKeyManagement(config: WifiConfiguration)
  {
    !config.sae && !config.wpaPsk && !config.suiteB192 && !config.wpaEap && !config.ieee8021x && !config.owe
  }

  /** Precedence SAE > WPA_PSK > SUITE_B_192 > (WPA_EAP or IEEE8021X) > OWE > wepKeys[0] > NONE. */
  function SecurityTypeFromWifiConfiguration(config: WifiConfiguration): (r: Security)
    ensures r == Sae <==> config.sae
    ensures r == Psk <==> !config.sae && config.wpaPsk
    ensures r == EapSuiteB <==> !config.sae && !config.wpaPsk && config.suiteB192
    ensures r == Eap <==> !config.sae && !config.wpaPsk && !config.suiteB192 && (config.wpaEap || config.ieee8021x)
    ensures r == Owe <==> !config.sae && !config.wpaPsk && !config.suiteB192 && !config.wpaEap && !config.ieee8021x && config.owe
    ensures r == Wep <==> NoKeyManagement(config) && config.wepKey0Present
    ensures r == Open <==> NoKeyManagement(config) && !config.wepKey0Present
  {
    if config.sae then Sae
    else if config.wpaPsk then Psk
    else if config.suiteB192 then EapSuiteB
    else if config.wpaEap || config.ieee8021x then Eap
    else if config.owe then Owe
    else if config.wepKey0Present then Wep
    else Open
  }
}
