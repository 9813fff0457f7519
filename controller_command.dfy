/** The controller command tags: every command a client may address to the
    controller, by its wire tag, with the schema versions for which the
    legacy and renamed tags are meant. */
module ControllerCommand {
  import opened Wrappers

  /** One constructor per entry of the controller's tag table, in table order. */
  datatype Command =
    | BeginInclusion
    | StopInclusion
    | BeginExclusion
    | StopExclusion
    | RemoveFailedNode
    | ReplaceFailedNode
    | HealNode
    | RebuildNodeRoutes
    | BeginHealingNetwork
    | BeginRebuildingRoutes
    | StopHealingNetwork
    | StopRebuildingRoutes
    | IsFailedNode
    | GetAssociationGroups
    | GetAssociations
    | IsAssociationAllowed
    | AddAssociations
    | RemoveAssociations
    | RemoveNodeFromAllAssocations
    | RemoveNodeFromAllAssociations
    | GetNodeNeighbors
    | GrantSecurityClasses
    | ValidateDSKAndEnterPIN
    | ProvisionSmartStartNode
    | UnprovisionSmartStartNode
    | GetProvisioningEntry
    | GetProvisioningEntries
    | SupportsFeature
    | BackupNVMRaw
    | RestoreNVM
    | SetRFRegion
    | GetRFRegion
    | SetPowerlevel
    | GetPowerlevel
    | GetState
    | GetKnownLifelineRoutes
    | GetAnyFirmwareUpdateProgress
    | IsAnyOTAFirmwareUpdateInProgress
    | GetAvailableFirmwareUpdates
    | BeginOTAFirmwareUpdate
    | FirmwareUpdateOTA
    | FirmwareUpdateOTW
    | IsFirmwareUpdateInProgress

  /** The namespace every controller tag starts with. */
  const Prefix := "controller."

  /** The part of a command's tag after the namespace. */
  function Suffix(c: Command): string {
    match c
    case BeginInclusion => "begin_inclusion"
    case StopInclusion => "stop_inclusion"
    case BeginExclusion => "begin_exclusion"
    case StopExclusion => "stop_exclusion"
    case RemoveFailedNode => "remove_failed_node"
    case ReplaceFailedNode => "replace_failed_node"
    case HealNode => "heal_node"
    case RebuildNodeRoutes => "rebuild_node_routes"
    case BeginHealingNetwork => "begin_healing_network"
    case BeginRebuildingRoutes => "begin_rebuilding_routes"
    case StopHealingNetwork => "stop_healing_network"
    case StopRebuildingRoutes => "stop_rebuilding_routes"
    case IsFailedNode => "is_failed_node"
    case GetAssociationGroups => "get_association_groups"
    case GetAssociations => "get_associations"
    case IsAssociationAllowed => "is_association_allowed"
    case AddAssociations => "add_associations"
    case RemoveAssociations => "remove_associations"
    case RemoveNodeFromAllAssocations => "remove_node_from_all_assocations"
    case RemoveNodeFromAllAssociations => "remove_node_from_all_associations"
    case GetNodeNeighbors => "get_node_neighbors"
    case GrantSecurityClasses => "grant_security_classes"
    case ValidateDSKAndEnterPIN => "validate_dsk_and_enter_pin"
    case ProvisionSmartStartNode => "provision_smart_start_node"
    case UnprovisionSmartStartNode => "unprovision_smart_start_node"
    case GetProvisioningEntry => "get_provisioning_entry"
    case GetProvisioningEntries => "get_provisioning_entries"
    case SupportsFeature => "supports_feature"
    case BackupNVMRaw => "backup_nvm_raw"
    case RestoreNVM => "restore_nvm"
    case SetRFRegion => "set_rf_region"
    case GetRFRegion => "get_rf_region"
    case SetPowerlevel => "set_powerlevel"
    case GetPowerlevel => "get_powerlevel"
    case GetState => "get_state"
    case GetKnownLifelineRoutes => "get_known_lifeline_routes"
    case GetAnyFirmwareUpdateProgress => "get_any_firmware_update_progress"
    case IsAnyOTAFirmwareUpdateInProgress => "is_any_ota_firmware_update_in_progress"
    case GetAvailableFirmwareUpdates => "get_available_firmware_updates"
    case BeginOTAFirmwareUpdate => "begin_ota_firmware_update"
    case FirmwareUpdateOTA => "firmware_update_ota"
    case FirmwareUpdateOTW => "firmware_update_otw"
    case IsFirmwareUpdateInProgress => "is_firmware_update_in_progress"
  }

  /** A tag is the namespace followed by the command's name. */
  lemma SuffixAfterPrefix(s: string)
    ensures (Prefix + s)[..|Prefix|] == Prefix && (Prefix + s)[|Prefix|..] == s
  {
  }

  /** The wire tag of a command. */
  function ToTag(c: Command): (tag: string)
    ensures |tag| >= |Prefix| && tag[..|Prefix|] == Prefix
  {
    SuffixAfterPrefix(Suffix(c));
    Prefix + Suffix(c)
  }

  /** The command whose tag name (after the namespace) is `s`, if any; the
      names are sorted by length first. */
  function FromSuffix(s: string): Option<Command>
  {
    match |s|
    case 9 =>
      if s == "heal_node" then Some(HealNode) else
      if s == "get_state" then Some(GetState) else
      None
    case 11 =>
      if s == "restore_nvm" then Some(RestoreNVM) else
      None
    case 13 =>
      if s == "set_rf_region" then Some(SetRFRegion) else
      if s == "get_rf_region" then Some(GetRFRegion) else
      None
    case 14 =>
      if s == "stop_inclusion" then Some(StopInclusion) else
      if s == "stop_exclusion" then Some(StopExclusion) else
      if s == "is_failed_node" then Some(IsFailedNode) else
      if s == "backup_nvm_raw" then Some(BackupNVMRaw) else
      if s == "set_powerlevel" then Some(SetPowerlevel) else
      if s == "get_powerlevel" then Some(GetPowerlevel) else
      None
    case 15 =>
      if s == "begin_inclusion" then Some(BeginInclusion) else
      if s == "begin_exclusion" then Some(BeginExclusion) else
      None
    case 16 =>
      if s == "get_associations" then Some(GetAssociations) else
      if s == "add_associations" then Some(AddAssociations) else
      if s == "supports_feature" then Some(SupportsFeature) else
      None
    case 18 =>
      if s == "remove_failed_node" then Some(RemoveFailedNode) else
      if s == "get_node_neighbors" then Some(GetNodeNeighbors) else
      None
    case 19 =>
      if s == "replace_failed_node" then Some(ReplaceFailedNode) else
      if s == "rebuild_node_routes" then Some(RebuildNodeRoutes) else
      if s == "remove_associations" then Some(RemoveAssociations) else
      if s == "firmware_update_ota" then Some(FirmwareUpdateOTA) else
      if s == "firmware_update_otw" then Some(FirmwareUpdateOTW) else
      None
    case 20 =>
      if s == "stop_healing_network" then Some(StopHealingNetwork) else
      None
    case 21 =>
      if s == "begin_healing_network" then Some(BeginHealingNetwork) else
      None
    case 22 =>
      if s == "stop_rebuilding_routes" then Some(StopRebuildingRoutes) else
      if s == "get_association_groups" then Some(GetAssociationGroups) else
      if s == "is_association_allowed" then Some(IsAssociationAllowed) else
      if s == "grant_security_classes" then Some(GrantSecurityClasses) else
      if s == "get_provisioning_entry" then Some(GetProvisioningEntry) else
      None
    case 23 =>
      if s == "begin_rebuilding_routes" then Some(BeginRebuildingRoutes) else
      None
    case 24 =>
      if s == "get_provisioning_entries" then Some(GetProvisioningEntries) else
      None
    case 25 =>
      if s == "get_known_lifeline_routes" then Some(GetKnownLifelineRoutes) else
      if s == "begin_ota_firmware_update" then Some(BeginOTAFirmwareUpdate) else
      None
    case 26 =>
      if s == "validate_dsk_and_enter_pin" then Some(ValidateDSKAndEnterPIN) else
      if s == "provision_smart_start_node" then Some(ProvisionSmartStartNode) else
      None
    case 28 =>
      if s == "unprovision_smart_start_node" then Some(UnprovisionSmartStartNode) else
      None
    case 30 =>
      if s == "get_available_firmware_updates" then Some(GetAvailableFirmwareUpdates) else
      if s == "is_firmware_update_in_progress" then Some(IsFirmwareUpdateInProgress) else
      None
    case 32 =>
      if s == "remove_node_from_all_assocations" then Some(RemoveNodeFromAllAssocations) else
      if s == "get_any_firmware_update_progress" then Some(GetAnyFirmwareUpdateProgress) else
      None
    case 33 =>
      if s == "remove_node_from_all_associations" then Some(RemoveNodeFromAllAssociations) else
      None
    case 38 =>
      if s == "is_any_ota_firmware_update_in_progress" then Some(IsAnyOTAFirmwareUpdateInProgress) else
      None
    case _ => None
  }

  /** Decodes a wire tag: the command carrying exactly the tag `s`, if any. */
  function FromTag(s: string): Option<Command>
  {
    if |s| >= |Prefix| && s[..|Prefix|] == Prefix then FromSuffix(s[|Prefix|..]) else None
  }

  /** The tag names of BeginInclusion, StopInclusion, BeginExclusion, StopExclusion decode back to their commands. */
  lemma {:induction false} SuffixRoundTrip0(c: Command)
    requires c.BeginInclusion? || c.StopInclusion? || c.BeginExclusion? || c.StopExclusion?
    ensures FromSuffix(Suffix(c)) == Some(c)
  {
    match c
    case BeginInclusion =>
    case StopInclusion =>
    case BeginExclusion =>
    case StopExclusion =>
    case _ => assert false;
  }

  /** The tag names of RemoveFailedNode, ReplaceFailedNode, HealNode, RebuildNodeRoutes decode back to their commands. */
  lemma {:induction false} SuffixRoundTrip1(c: Command)
    requires c.RemoveFailedNode? || c.ReplaceFailedNode? || c.HealNode? || c.RebuildNodeRoutes?
    ensures FromSuffix(Suffix(c)) == Some(c)
  {
    match c
    case RemoveFailedNode =>
    case ReplaceFailedNode =>
    case HealNode =>
    case RebuildNodeRoutes =>
    case _ => assert false;
  }

  /** The tag names of BeginHealingNetwork, BeginRebuildingRoutes, StopHealingNetwork, StopRebuildingRoutes decode back to their commands. */
  lemma {:induction false} SuffixRoundTrip2(c: Command)
    requires c.BeginHealingNetwork? || c.BeginRebuildingRoutes? || c.StopHealingNetwork? || c.StopRebuildingRoutes?
    ensures FromSuffix(Suffix(c)) == Some(c)
  {
    match c
    case BeginHealingNetwork =>
    case BeginRebuildingRoutes =>
    case StopHealingNetwork =>
    case StopRebuildingRoutes =>
    case _ => assert false;
  }

  /** The tag names of IsFailedNode, GetAssociationGroups, GetAssociations, IsAssociationAllowed decode back to their commands. */
  lemma {:induction false} SuffixRoundTrip3(c: Command)
    requires c.IsFailedNode? || c.GetAssociationGroups? || c.GetAssociations? || c.IsAssociationAllowed?
    ensures FromSuffix(Suffix(c)) == Some(c)
  {
    match c
    case IsFailedNode =>
    case GetAssociationGroups =>
    case GetAssociations =>
    case IsAssociationAllowed =>
    case _ => assert false;
  }

  /** The tag names of AddAssociations, RemoveAssociations, RemoveNodeFromAllAssocations, RemoveNodeFromAllAssociations decode back to their commands. */
  lemma {:induction false} SuffixRoundTrip4(c: Command)
    requires c.AddAssociations? || c.RemoveAssociations? || c.RemoveNodeFromAllAssocations? || c.RemoveNodeFromAllAssociations?
    ensures FromSuffix(Suffix(c)) == Some(c)
  {
    match c
    case AddAssociations =>
    case RemoveAssociations =>
    case RemoveNodeFromAllAssocations =>
    case RemoveNodeFromAllAssociations =>
    case _ => assert false;
  }

  /** The tag names of GetNodeNeighbors, GrantSecurityClasses, ValidateDSKAndEnterPIN, ProvisionSmartStartNode decode back to their commands. */
  lemma {:induction false} SuffixRoundTrip5(c: Command)
    requires c.GetNodeNeighbors? || c.GrantSecurityClasses? || c.ValidateDSKAndEnterPIN? || c.ProvisionSmartStartNode?
    ensures FromSuffix(Suffix(c)) == Some(c)
  {
    match c
    case GetNodeNeighbors =>
    case GrantSecurityClasses =>
    case ValidateDSKAndEnterPIN =>
    case ProvisionSmartStartNode =>
    case _ => assert false;
  }

  /** The tag names of UnprovisionSmartStartNode, GetProvisioningEntry, GetProvisioningEntries, SupportsFeature decode back to their commands. */
  lemma {:induction false} SuffixRoundTrip6(c: Command)
    requires c.UnprovisionSmartStartNode? || c.GetProvisioningEntry? || c.GetProvisioningEntries? || c.SupportsFeature?
    ensures FromSuffix(Suffix(c)) == Some(c)
  {
    match c
    case UnprovisionSmartStartNode =>
    case GetProvisioningEntry =>
    case GetProvisioningEntries =>
    case SupportsFeature =>
    case _ => assert false;
  }

  /** The tag names of BackupNVMRaw, RestoreNVM, SetRFRegion, GetRFRegion decode back to their commands. */
  lemma {:induction false} SuffixRoundTrip7(c: Command)
    requires c.BackupNVMRaw? || c.RestoreNVM? || c.SetRFRegion? || c.GetRFRegion?
    ensures FromSuffix(Suffix(c)) == Some(c)
  {
    match c
    case BackupNVMRaw =>
    case RestoreNVM =>
    case SetRFRegion =>
    case GetRFRegion =>
    case _ => assert false;
  }

  /** The tag names of SetPowerlevel, GetPowerlevel, GetState, GetKnownLifelineRoutes decode back to their commands. */
  lemma {:induction false} SuffixRoundTrip8(c: Command)
    requires c.SetPowerlevel? || c.GetPowerlevel? || c.GetState? || c.GetKnownLifelineRoutes?
    ensures FromSuffix(Suffix(c)) == Some(c)
  {
    match c
    case SetPowerlevel =>
    case GetPowerlevel =>
    case GetState =>
    case GetKnownLifelineRoutes =>
    case _ => assert false;
  }

  /** The tag names of GetAnyFirmwareUpdateProgress, IsAnyOTAFirmwareUpdateInProgress, GetAvailableFirmwareUpdates, BeginOTAFirmwareUpdate decode back to their commands. */
  lemma {:induction false} SuffixRoundTrip9(c: Command)
    requires c.GetAnyFirmwareUpdateProgress? || c.IsAnyOTAFirmwareUpdateInProgress? || c.GetAvailableFirmwareUpdates? || c.BeginOTAFirmwareUpdate?
    ensures FromSuffix(Suffix(c)) == Some(c)
  {
    match c
    case GetAnyFirmwareUpdateProgress =>
    case IsAnyOTAFirmwareUpdateInProgress =>
    case GetAvailableFirmwareUpdates =>
    case BeginOTAFirmwareUpdate =>
    case _ => assert false;
  }

  /** The tag names of FirmwareUpdateOTA, FirmwareUpdateOTW, IsFirmwareUpdateInProgress decode back to their commands. */
  lemma {:induction false} SuffixRoundTrip10(c: Command)
    requires c.FirmwareUpdateOTA? || c.FirmwareUpdateOTW? || c.IsFirmwareUpdateInProgress?
    ensures FromSuffix(Suffix(c)) == Some(c)
  {
    match c
    case FirmwareUpdateOTA =>
    case FirmwareUpdateOTW =>
    case IsFirmwareUpdateInProgress =>
    case _ => assert false;
  }

  /** Every tag name decodes back to its command. */
  lemma {:induction false} SuffixRoundTrip(c: Command)
    ensures FromSuffix(Suffix(c)) == Some(c)
  {
    if c.BeginInclusion? || c.StopInclusion? || c.BeginExclusion? || c.StopExclusion? {
      SuffixRoundTrip0(c);
    } else if c.RemoveFailedNode? || c.ReplaceFailedNode? || c.HealNode? || c.RebuildNodeRoutes? {
      SuffixRoundTrip1(c);
    } else if c.BeginHealingNetwork? || c.BeginRebuildingRoutes? || c.StopHealingNetwork? || c.StopRebuildingRoutes? {
      SuffixRoundTrip2(c);
    } else if c.IsFailedNode? || c.GetAssociationGroups? || c.GetAssociations? || c.IsAssociationAllowed? {
      SuffixRoundTrip3(c);
    } else if c.AddAssociations? || c.RemoveAssociations? || c.RemoveNodeFromAllAssocations? || c.RemoveNodeFromAllAssociations? {
      SuffixRoundTrip4(c);
    } else if c.GetNodeNeighbors? || c.GrantSecurityClasses? || c.ValidateDSKAndEnterPIN? || c.ProvisionSmartStartNode? {
      SuffixRoundTrip5(c);
    } else if c.UnprovisionSmartStartNode? || c.GetProvisioningEntry? || c.GetProvisioningEntries? || c.SupportsFeature? {
      SuffixRoundTrip6(c);
    } else if c.BackupNVMRaw? || c.RestoreNVM? || c.SetRFRegion? || c.GetRFRegion? {
      SuffixRoundTrip7(c);
    } else if c.SetPowerlevel? || c.GetPowerlevel? || c.GetState? || c.GetKnownLifelineRoutes? {
      SuffixRoundTrip8(c);
    } else if c.GetAnyFirmwareUpdateProgress? || c.IsAnyOTAFirmwareUpdateInProgress? || c.GetAvailableFirmwareUpdates? || c.BeginOTAFirmwareUpdate? {
      SuffixRoundTrip9(c);
    } else {
      SuffixRoundTrip10(c);
    }
  }

  /** Decoding a command's tag gives back that command. */
  lemma TagRoundTrip(c: Command)
    ensures FromTag(ToTag(c)) == Some(c)
  {
    SuffixAfterPrefix(Suffix(c));
    SuffixRoundTrip(c);
  }

  /** No two commands share a tag, so looking a command up by its tag is well defined. */
  lemma TagsAreDistinct(a: Command, b: Command)
    ensures ToTag(a) == ToTag(b) ==> a == b
  {
    TagRoundTrip(a);
    TagRoundTrip(b);
  }

  /** The schema versions a table entry is meant for, as annotated in the table. */
  datatype SchemaRange =
    | AllVersions
    | Below(bound: int)   // schema version < bound
    | Above(bound: int)   // schema version > bound

  predicate InRange(range: SchemaRange, version: int) {
    match range
    case AllVersions => true
    case Below(bound) => version < bound
    case Above(bound) => version > bound
  }

  /** The lowest and highest schema versions the server speaks. */
  const MinSchemaVersion := 0
  const MaxSchemaVersion := 40

  /** The version annotation of each table entry. */
  function Annotation(c: Command): (r: SchemaRange)
    ensures r.Below? ==> c in {HealNode, BeginHealingNetwork, StopHealingNetwork, RemoveNodeFromAllAssocations}
    ensures r.Above? ==> c in {RebuildNodeRoutes, BeginRebuildingRoutes, StopRebuildingRoutes, RemoveNodeFromAllAssociations}
  {
    match c
    case HealNode => Below(32)
    case RebuildNodeRoutes => Above(31)
    case BeginHealingNetwork => Below(32)
    case BeginRebuildingRoutes => Above(31)
    case StopHealingNetwork => Below(32)
    case StopRebuildingRoutes => Above(31)
    case RemoveNodeFromAllAssocations => Below(3)
    case RemoveNodeFromAllAssociations => Above(2)
    case _ => AllVersions
  }

  /** The entry that takes over from a legacy entry at higher schema versions. */
  function Replacement(c: Command): (r: Option<Command>)
    ensures r.Some? <==> Annotation(c).Below?
    ensures r.Some? ==> Annotation(r.value).Above? && Annotation(r.value).bound == Annotation(c).bound - 1
  {
    match c
    case HealNode => Some(RebuildNodeRoutes)
    case BeginHealingNetwork => Some(BeginRebuildingRoutes)
    case StopHealingNetwork => Some(StopRebuildingRoutes)
    case RemoveNodeFromAllAssocations => Some(RemoveNodeFromAllAssociations)
    case _ => None
  }

  /** Every integer schema version is meant for exactly one entry of each
      legacy/renamed pair. */
  lemma PairPartitionsVersions(legacy: Command, version: int)
    requires Replacement(legacy).Some?
    ensures InRange(Annotation(legacy), version) != InRange(Annotation(Replacement(legacy).value), version)
  {
  }

  /** Every annotated entry belongs to one legacy/renamed pair: the renamed
      entries are exactly the replacements of the legacy ones. */
  lemma RenamedEntriesHaveLegacyPartner(c: Command)
    requires Annotation(c).Above?
    ensures exists legacy :: Replacement(legacy) == Some(c)
  {
    match c
    case RebuildNodeRoutes => assert Replacement(HealNode) == Some(c);
    case BeginRebuildingRoutes => assert Replacement(BeginHealingNetwork) == Some(c);
    case StopRebuildingRoutes => assert Replacement(StopHealingNetwork) == Some(c);
    case RemoveNodeFromAllAssociations => assert Replacement(RemoveNodeFromAllAssocations) == Some(c);
  }

  /** Both entries of each pair are meant for some version the server speaks:
      the legacy one at the lowest, the renamed one at the highest. */
  lemma PairsSpanSupportedVersions(legacy: Command)
    requires Replacement(legacy).Some?
    ensures InRange(Annotation(legacy), MinSchemaVersion)
    ensures InRange(Annotation(Replacement(legacy).value), MaxSchemaVersion)
    ensures !InRange(Annotation(legacy), MaxSchemaVersion)
    ensures !InRange(Annotation(Replacement(legacy).value), MinSchemaVersion)
  {
  }
}
