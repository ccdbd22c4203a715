/** The status-to-string mappings and the composite CLIR value of the "31" query reply. */
module Strings {
  import opened Types

  /** The display string of a CLIP, COLP or COLR status. */
  function StatusToString(s: ProvisionStatus): (r: string)
    ensures r == "enabled" <==> s == Provisioned
    ensures r == "disabled" <==> s == NotProvisioned
    ensures r == "unknown" <==> s == StatusUnknown
  {
    match s
    case NotProvisioned => "disabled"
    case Provisioned => "enabled"
    case StatusUnknown => "unknown"
  }

  /** The display string of the HideCallerId override. */
  function HideCallerIdToString(o: ClirOption): (r: string)
    ensures r in {"default", "enabled", "disabled"}
    ensures r == "enabled" <==> o == Invocation
    ensures r == "disabled" <==> o == Suppression
  {
    match o
    case OptionDefault => "default"
    case Invocation => "enabled"
    case Suppression => "disabled"
  }

  /** The HideCallerId literal accepted by SetProperty; None for any other string. */
  function ParseHideCallerId(setting: string): (r: Option<ClirOption>)
    ensures r.None? <==> setting !in {"default", "enabled", "disabled"}
  {
    if setting == "default" then Some(OptionDefault)
    else if setting == "enabled" then Some(Invocation)
    else if setting == "disabled" then Some(Suppression)
    else None
  }

  /** Parsing is the inverse of display, in both directions. */
  lemma HideCallerIdRoundTrip(o: ClirOption, setting: string)
    ensures ParseHideCallerId(HideCallerIdToString(o)) == Some(o)
    ensures ParseHideCallerId(setting) == Some(o) ==> HideCallerIdToString(o) == setting
  {
  }

  /** The display string of the CLIR network status in the properties. */
  function ClirStatusToString(s: ClirStatus): (r: string)
    ensures r == "disabled" <==> s == ClirNotProvisioned
    ensures r == "permanent" <==> s == ClirPermanent
    ensures r == "on" <==> s == ClirTemporaryRestricted
    ensures r == "off" <==> s == ClirTemporaryAllowed
    ensures r == "unknown" <==> s == ClirUnknown
  {
    match s
    case ClirNotProvisioned => "disabled"
    case ClirPermanent => "permanent"
    case ClirTemporaryRestricted => "on"
    case ClirTemporaryAllowed => "off"
    case ClirUnknown => "unknown"
  }

  /** Every display mapping tells its inputs apart. */
  lemma DisplayInjective(a: ProvisionStatus, b: ProvisionStatus, x: ClirStatus, y: ClirStatus,
                         o: ClirOption, p: ClirOption)
    ensures StatusToString(a) == StatusToString(b) ==> a == b
    ensures ClirStatusToString(x) == ClirStatusToString(y) ==> x == y
    ensures HideCallerIdToString(o) == HideCallerIdToString(p) ==> o == p
  {
  }

  /** The value reported by a "31" query: whether CLIR is in effect. The unknown
      network status is spelled "uknown", as the reply has it. */
  function CompositeClirValue(network: ClirStatus, override: ClirOption): (r: string)
    ensures network == ClirUnknown <==> r == "uknown"
    ensures r == "enabled" <==>
              network == ClirPermanent
              || (network == ClirTemporaryRestricted && override == Suppression)
              || (network == ClirTemporaryAllowed && override == Invocation)
    ensures r in {"uknown", "enabled", "disabled"}
  {
    match network
    case ClirUnknown => "uknown"
    case ClirPermanent => "enabled"
    case ClirNotProvisioned => "disabled"
    case ClirTemporaryRestricted => if override == Suppression then "enabled" else "disabled"
    case ClirTemporaryAllowed => if override == Invocation then "enabled" else "disabled"
  }

  /** The override matters only for the two temporary network modes, and there it decides. */
  lemma CompositeOverrideRelevance(network: ClirStatus, o: ClirOption, p: ClirOption)
    ensures network !in {ClirTemporaryRestricted, ClirTemporaryAllowed} ==>
              CompositeClirValue(network, o) == CompositeClirValue(network, p)
    ensures network == ClirTemporaryRestricted ==>
              (CompositeClirValue(network, o) == CompositeClirValue(network, p) <==>
               ((o == Suppression) == (p == Suppression)))
    ensures network == ClirTemporaryAllowed ==>
              (CompositeClirValue(network, o) == CompositeClirValue(network, p) <==>
               ((o == Invocation) == (p == Invocation)))
  {
  }
}
