# Azure resource identifiers of terraform-provider-azurerm, in Dafny

This project models the part of terraform-provider-azurerm that turns Azure resource
identifiers into typed records and back:

- **Generated ARM identifiers.** A record per kind, with a constructor, `ID()` that renders the
  canonical path `/subscriptions/{sub}/resourceGroups/{rg}/providers/{namespace}/{key}/{name}...`,
  a strict parser and, for SDK-generated kinds, a parser that matches the resource-type keys up
  to case. Four kinds are modelled:
  - the Managed HSM private-endpoint connection (`MhsmPrivateEndpointConnections`), whose
    parsers are written out step by step as the generated code is;
  - the Key Vault private-endpoint connection (`KeyVaultPrivateEndpointConnections`);
  - the Key Vault vault (`KeyVaultVaults`);
  - the Synapse workspace extended-auditing policy (`SynapseWorkspaceExtendedAuditingPolicy`,
    strict parser only).
- **The Managed HSM role-definition identifier** (`ManagedHsmRoleDefinition`): a data-plane URL
  `{scheme}://{host}/{scope}/RoleDefinition/{name}` that is cut at its last two '/' and
  rendered back with `Join` and `TrimSuffix`.

The modules:

- `Text`: the `strings` functions the code uses (`IndexByte`, `LastIndex`, `Join`, `Split`,
  `TrimPrefix`, `TrimSuffix`, ASCII `EqualFold`).
- `Urls`: the part of `url.ParseRequestURI` the parsers depend on: control characters are
  refused, "*" is a path of its own, and the path is percent-decoded.
- `ResourceIds`: the resource-ID library: `ParseAzureResourceID`, a `ResourceId` class whose
  `PopSegment` removes a key from its path map, and `ValidateNoEmptySegments`.
- `Grammars`: one engine for every generated kind. A grammar is a provider namespace and the
  ordered resource-type keys after `subscriptions`/`resourceGroups`/`providers`.
  - `Parse` is the specification of a generated parser.
  - `ParseResourceId`, `PopKeys` and `PopNext` are the imperative parser, proved equal to it.
  - `Format` is `ID()`.
  - The lemmas prove, for every well-formed grammar: the round trip, the effect of key casing
    in each mode, the rejection of truncated identifiers and of keys without values, and that
    the insensitive parser extends the strict one.
- One module per identifier kind. Each instantiates the engine, proves its own `ID()` equal to
  `Format`, and states the test vectors of its test file as lemmas. Field values are symbolic
  in these lemmas, so each covers every plain value and not just the one in the test.

A *plain* value (`Grammars.Plain`) is non-empty and holds no '/', '?', '%' or control
character: the URL parser keeps it as it is, so it can stand as one segment of an identifier.

`Parse` in `Grammars` is the reference definition. The methods are proved to compute it:
- for the strict parser, whatever the path;
- for the insensitive parser, whichever case-insensitive match the key search takes. Go's map
  iteration order is left open.

## Model

| member | source | states |
|---|---|---|
| Grammars.ParseResourceId | internal/services/keyvault/sdk/keyvault/2021-06-01-preview/mhsmprivateendpointconnections/id_privateendpointconnection.go:42-73 | the generated parser (library split, subscription and resource-group checks, one pop per key, leftover check) returns exactly what `Parse` specifies, in both modes and whichever matching key the insensitive search picks |
| Grammars.PopKeys | internal/services/keyvault/sdk/keyvault/2021-06-01-preview/mhsmprivateendpointconnections/id_privateendpointconnection.go:61-70 | popping the grammar's keys in order and then checking for leftovers gives the names of the keys, or the error `PopAll` specifies |
| Grammars.PopNext | internal/services/keyvault/sdk/keyvault/2021-06-01-preview/mhsmprivateendpointconnections/id_privateendpointconnection.go:97-107 | one pop, after the key search when insensitive, fails exactly when the specified pops fail and otherwise keeps the parser on track with them |
| Grammars.FindKey | internal/services/keyvault/sdk/keyvault/2021-06-01-preview/mhsmprivateendpointconnections/id_privateendpointconnection.go:97-104 | the key search returns a path key equal to the canonical key up to case, or the canonical key when the path has none |
| Grammars.PopAll | internal/services/keyvault/sdk/keyvault/2021-06-01-preview/mhsmprivateendpointconnections/id_privateendpointconnection.go:61-70 | successful pops return one name per grammar key, each a value of the path map |
| Grammars.Check | internal/services/keyvault/sdk/keyvault/2021-06-01-preview/mhsmprivateendpointconnections/id_privateendpointconnection.go:48-70 | a successful parse returns a non-empty subscription, resource group and names, none containing '/' |
| Grammars.Parse | internal/services/keyvault/sdk/keyvault/2021-06-01-preview/mhsmprivateendpointconnections/id_privateendpointconnection.go:42-73 | the reference parse: the library split, then the checks and pops; a success has a non-empty, '/'-free subscription, resource group and names |
| Grammars.RoundTrip | internal/services/keyvault/sdk/keyvault/2021-06-01-preview/mhsmprivateendpointconnections/id_privateendpointconnection.go:36-126 | both parsers give back the fields of any identifier `ID()` renders from plain fields, whatever namespace stands after "providers" |
| Grammars.ParseFormatParse | internal/services/keyvault/sdk/keyvault/2021-06-01-preview/mhsmprivateendpointconnections/id_privateendpointconnection.go:36-73 | parsing the rendering of a parsed identifier whose fields the URL parser keeps verbatim gives the same fields again |
| Grammars.InsensitiveAcceptsRecased | internal/services/keyvault/sdk/keyvault/2021-06-01-preview/mhsmprivateendpointconnections/id_privateendpointconnection.go:97-119 | the insensitive parser accepts the resource-type keys in any casing and returns the same fields as for the canonical spelling |
| Grammars.StrictRejectsRecased | internal/services/keyvault/sdk/keyvault/2021-06-01-preview/mhsmprivateendpointconnections/id_privateendpointconnection.go:61-66 | the strict parser reports the first resource-type key spelled otherwise than in the grammar as missing |
| Grammars.TruncatedRejected | internal/services/keyvault/sdk/keyvault/2021-06-01-preview/mhsmprivateendpointconnections/id_privateendpointconnection.go:61-66 | an identifier cut off after any resource-type pair is refused by both parsers, which report the next key missing |
| Grammars.EmptyValueRejected | internal/services/keyvault/sdk/keyvault/2021-06-01-preview/mhsmprivateendpointconnections/id_privateendpointconnection.go:43-46 | an identifier that ends in a key without a value is refused by the library split, whatever precedes it |
| Grammars.SubscriptionsKeyExact | internal/services/keyvault/sdk/keyvault/2021-06-01-preview/mhsmprivateendpointconnections/id_privateendpointconnection.go:53-55 | in both modes, an identifier without the exact key "subscriptions" is refused for a missing subscription |
| Grammars.ResourceGroupsKeyRequired | internal/services/keyvault/sdk/keyvault/2021-06-01-preview/mhsmprivateendpointconnections/id_privateendpointconnection.go:57-59 | in both modes, an identifier with a subscription but with neither the key "resourceGroups" nor the key "resourcegroups" is refused for a missing resource group |
| Grammars.LowerResourceGroupsAccepted | internal/services/keyvault/sdk/keyvault/2021-06-01-preview/mhsmprivateendpointconnections/id_privateendpointconnection.go:43-59 | both parsers take the resource group from a lower-case "resourcegroups" key and return the fields of the canonical identifier |
| Grammars.InsensitiveExtendsStrict | internal/services/keyvault/sdk/keyvault/2021-06-01-preview/mhsmprivateendpointconnections/id_privateendpointconnection.go:78-126 | the insensitive parser accepts everything the strict one accepts, with the same fields |
| Grammars.AmbiguousRejected | internal/services/keyvault/sdk/keyvault/2021-06-01-preview/mhsmprivateendpointconnections/id_privateendpointconnection.go:99-104 | two path keys equal up to case to one resource-type key make the insensitive parser fail, whichever of them the search takes first |
| Grammars.CollectAssign | internal/services/keyvault/sdk/keyvault/2021-06-01-preview/mhsmprivateendpointconnections/id_privateendpointconnection.go:43-46 | after the subscription and the provider, the library stores every pair in its path map, a repeated key keeping its last value |
| ResourceIds.ParseAzureResourceID | internal/services/keyvault/sdk/keyvault/2021-06-01-preview/mhsmprivateendpointconnections/id_privateendpointconnection.go:43-46 | the library's split either fails with its error or gives a fresh identifier holding the subscription, resource group, provider and path map |
| ResourceIds.ResourceId.PopSegment | internal/services/keyvault/sdk/keyvault/2021-06-01-preview/mhsmprivateendpointconnections/id_privateendpointconnection.go:61-66 | a present key is removed and its value returned; an absent key gives MissingElement and changes nothing |
| ResourceIds.ResourceId.ValidateNoEmptySegments | internal/services/keyvault/sdk/keyvault/2021-06-01-preview/mhsmprivateendpointconnections/id_privateendpointconnection.go:68-70 | the check passes exactly when no key is left in the path, and fails with ExtraSegments otherwise |
| ResourceIds.SplitResourceIdPlain | internal/services/keyvault/sdk/keyvault/2021-06-01-preview/mhsmprivateendpointconnections/id_privateendpointconnection.go:43-46 | every value the library keeps is non-empty and holds no '/' |
| ResourceIds.SplitJoinedPath | internal/services/keyvault/sdk/keyvault/2021-06-01-preview/mhsmprivateendpointconnections/id_privateendpointconnection.go:43-46 | a path written as '/' and its '/'-free segments, with no '?', '%' or control character, with or without a trailing '/', splits back into those segments |
| MhsmPrivateEndpointConnections.NewPrivateEndpointConnectionID | internal/services/keyvault/sdk/keyvault/2021-06-01-preview/mhsmprivateendpointconnections/id_privateendpointconnection.go:17-24 | the record holds its four arguments unchanged |
| MhsmPrivateEndpointConnections.PrivateEndpointConnectionId.String | internal/services/keyvault/sdk/keyvault/2021-06-01-preview/mhsmprivateendpointconnections/id_privateendpointconnection.go:26-34 | the description names the connection, the HSM and the resource group, in that order, and leaves out the subscription |
| MhsmPrivateEndpointConnections.IdIsFormat | internal/services/keyvault/sdk/keyvault/2021-06-01-preview/mhsmprivateendpointconnections/id_privateendpointconnection.go:36-39 | `ID()` is the grammar's rendering of the four fields under Microsoft.KeyVault/managedHSMs/privateEndpointConnections |
| MhsmPrivateEndpointConnections.SpecOf | internal/services/keyvault/sdk/keyvault/2021-06-01-preview/mhsmprivateendpointconnections/id_privateendpointconnection.go:48-59 | an empty subscription or an empty resource group is an error; otherwise the result is the record of the two pops, or their error |
| MhsmPrivateEndpointConnections.ParsePrivateEndpointConnectionID | internal/services/keyvault/sdk/keyvault/2021-06-01-preview/mhsmprivateendpointconnections/id_privateendpointconnection.go:42-73 | the strict parser, written step by step, returns what the specification of the strict grammar parse gives |
| MhsmPrivateEndpointConnections.ParsePrivateEndpointConnectionIDInsensitively | internal/services/keyvault/sdk/keyvault/2021-06-01-preview/mhsmprivateendpointconnections/id_privateendpointconnection.go:78-126 | the insensitive parser returns what the specification gives, whichever matching key its search takes |
| MhsmPrivateEndpointConnections.PopNames | internal/services/keyvault/sdk/keyvault/2021-06-01-preview/mhsmprivateendpointconnections/id_privateendpointconnection.go:61-70 | the two pops and the leftover check give the two names, or the error of the specified pops |
| MhsmPrivateEndpointConnections.RoundTrip | internal/services/keyvault/sdk/keyvault/2021-06-01-preview/mhsmprivateendpointconnections/id_privateendpointconnection.go:36-126 | both parsers give back every identifier with plain fields from its `ID()` |
| MhsmPrivateEndpointConnections.AnyNamespace | internal/services/keyvault/sdk/keyvault/2021-06-01-preview/mhsmprivateendpointconnections/id_privateendpointconnection.go:42-73 | the namespace after "providers" is never compared with Microsoft.KeyVault: any plain namespace parses to the same record |
| MhsmPrivateEndpointConnections.InsensitiveRecasedKeys | internal/services/keyvault/sdk/keyvault/2021-06-01-preview/mhsmprivateendpointconnections/id_privateendpointconnection.go:97-119 | the insensitive parser accepts "managedHSMs" and "privateEndpointConnections" in any casing with the same fields |
| MhsmPrivateEndpointConnections.StrictRecasedKeys | internal/services/keyvault/sdk/keyvault/2021-06-01-preview/mhsmprivateendpointconnections/id_privateendpointconnection.go:61-66 | the strict parser accepts only the exact spellings, and otherwise reports the first key spelled otherwise as missing |
| KeyVaultPrivateEndpointConnections.NewPrivateEndpointConnectionID | internal/services/keyvault/sdk/2021-06-01-preview/privateendpointconnections/id_privateendpointconnection_test.go:11-17 | the record holds its four arguments unchanged |
| KeyVaultPrivateEndpointConnections.IdIsFormat | internal/services/keyvault/sdk/2021-06-01-preview/privateendpointconnections/id_privateendpointconnection_test.go:11-17 | `ID()` is the rendering under Microsoft.KeyVault/vaults/privateEndpointConnections |
| KeyVaultPrivateEndpointConnections.ParsePrivateEndpointConnectionID | internal/services/keyvault/sdk/2021-06-01-preview/privateendpointconnections/id_privateendpointconnection_test.go:98-124 | the strict parser returns what the strict grammar parse specifies |
| KeyVaultPrivateEndpointConnections.ParsePrivateEndpointConnectionIDInsensitively | internal/services/keyvault/sdk/2021-06-01-preview/privateendpointconnections/id_privateendpointconnection_test.go:234-260 | the insensitive parser returns what the insensitive grammar parse specifies |
| KeyVaultPrivateEndpointConnections.RoundTrip | internal/services/keyvault/sdk/2021-06-01-preview/privateendpointconnections/id_privateendpointconnection_test.go:80-89 | the canonical identifier parses, in both modes, to its subscription, resource group, vault and connection |
| KeyVaultPrivateEndpointConnections.RejectsEmptyAndRoot | internal/services/keyvault/sdk/2021-06-01-preview/privateendpointconnections/id_privateendpointconnection_test.go:26-36 | "" and "/" are refused by both parsers |
| KeyVaultPrivateEndpointConnections.RejectsSubscriptionsWithoutValue | internal/services/keyvault/sdk/2021-06-01-preview/privateendpointconnections/id_privateendpointconnection_test.go:38-42 | "/subscriptions/" is refused by both parsers |
| KeyVaultPrivateEndpointConnections.RejectsWithoutResourceGroup | internal/services/keyvault/sdk/2021-06-01-preview/privateendpointconnections/id_privateendpointconnection_test.go:44-54 | an identifier that stops after the subscription, or at "resourceGroups/", is refused by both parsers |
| KeyVaultPrivateEndpointConnections.RejectsWithoutVault | internal/services/keyvault/sdk/2021-06-01-preview/privateendpointconnections/id_privateendpointconnection_test.go:56-66 | an identifier that stops after the namespace, or at "vaults/", is refused by both parsers |
| KeyVaultPrivateEndpointConnections.RejectsWithoutConnection | internal/services/keyvault/sdk/2021-06-01-preview/privateendpointconnections/id_privateendpointconnection_test.go:68-78 | an identifier that stops after the vault, or at "privateEndpointConnections/", is refused by both parsers |
| KeyVaultPrivateEndpointConnections.RecasedKeys | internal/services/keyvault/sdk/2021-06-01-preview/privateendpointconnections/id_privateendpointconnection_test.go:200-231 | with "vaults" and "privateEndpointConnections" in any casing, the insensitive parser returns the canonical fields and the strict one reports the first recased key missing |
| KeyVaultPrivateEndpointConnections.InsensitiveVectors | internal/services/keyvault/sdk/2021-06-01-preview/privateendpointconnections/id_privateendpointconnection_test.go:200-231 | the lower-, upper- and mixed-case vectors parse insensitively to the same record |
| KeyVaultPrivateEndpointConnections.RejectsUpperCased | internal/services/keyvault/sdk/2021-06-01-preview/privateendpointconnections/id_privateendpointconnection_test.go:91-95 | the fully upper-cased identifier is refused for a missing subscription |
| KeyVaultVaults.NewVaultID | internal/services/keyvault/sdk/keyvault/2021-06-01-preview/privateendpointconnections/id_vault_test.go:11-17 | the record holds its three arguments unchanged |
| KeyVaultVaults.IdIsFormat | internal/services/keyvault/sdk/keyvault/2021-06-01-preview/privateendpointconnections/id_vault_test.go:11-17 | `ID()` is the rendering under Microsoft.KeyVault/vaults |
| KeyVaultVaults.ParseVaultID | internal/services/keyvault/sdk/keyvault/2021-06-01-preview/privateendpointconnections/id_vault_test.go:85-110 | the strict parser returns what the strict grammar parse specifies |
| KeyVaultVaults.ParseVaultIDInsensitively | internal/services/keyvault/sdk/keyvault/2021-06-01-preview/privateendpointconnections/id_vault_test.go:202-227 | the insensitive parser returns what the insensitive grammar parse specifies |
| KeyVaultVaults.RoundTrip | internal/services/keyvault/sdk/keyvault/2021-06-01-preview/privateendpointconnections/id_vault_test.go:68-76 | the canonical identifier parses, in both modes, to its subscription, resource group and vault name |
| KeyVaultVaults.RejectsEmptyAndRoot | internal/services/keyvault/sdk/keyvault/2021-06-01-preview/privateendpointconnections/id_vault_test.go:26-36 | "" and "/" are refused by both parsers |
| KeyVaultVaults.RejectsSubscriptionsWithoutValue | internal/services/keyvault/sdk/keyvault/2021-06-01-preview/privateendpointconnections/id_vault_test.go:38-42 | "/subscriptions/" is refused by both parsers |
| KeyVaultVaults.RejectsWithoutResourceGroup | internal/services/keyvault/sdk/keyvault/2021-06-01-preview/privateendpointconnections/id_vault_test.go:44-54 | an identifier that stops after the subscription, or at "resourceGroups/", is refused by both parsers |
| KeyVaultVaults.RejectsWithoutVault | internal/services/keyvault/sdk/keyvault/2021-06-01-preview/privateendpointconnections/id_vault_test.go:56-66 | an identifier that stops after the namespace, or at "vaults/", is refused by both parsers |
| KeyVaultVaults.RecasedKey | internal/services/keyvault/sdk/keyvault/2021-06-01-preview/privateendpointconnections/id_vault_test.go:161-199 | with "vaults" in any casing, the insensitive parser returns the canonical fields and the strict one reports the key missing |
| KeyVaultVaults.InsensitiveVectors | internal/services/keyvault/sdk/keyvault/2021-06-01-preview/privateendpointconnections/id_vault_test.go:171-199 | "vaults", "VAULTS" and "VaUlTs" parse insensitively to the same record |
| KeyVaultVaults.RejectsUpperCased | internal/services/keyvault/sdk/keyvault/2021-06-01-preview/privateendpointconnections/id_vault_test.go:78-82 | the fully upper-cased identifier is refused for a missing subscription |
| SynapseWorkspaceExtendedAuditingPolicy.NewWorkspaceExtendedAuditingPolicyID | internal/services/synapse/parse/workspace_extended_auditing_policy_test.go:13-19 | the record holds its four arguments unchanged |
| SynapseWorkspaceExtendedAuditingPolicy.IdIsFormat | internal/services/synapse/parse/workspace_extended_auditing_policy_test.go:13-19 | `ID()` is the rendering under Microsoft.Synapse/workspaces/extendedAuditingSettings |
| SynapseWorkspaceExtendedAuditingPolicy.WorkspaceExtendedAuditingPolicyID | internal/services/synapse/parse/workspace_extended_auditing_policy_test.go:100-123 | the parser returns what the strict grammar parse specifies |
| SynapseWorkspaceExtendedAuditingPolicy.RoundTrip | internal/services/synapse/parse/workspace_extended_auditing_policy_test.go:82-91 | the canonical identifier parses to its subscription, resource group, workspace and setting name |
| SynapseWorkspaceExtendedAuditingPolicy.RejectsEmptyAndRoot | internal/services/synapse/parse/workspace_extended_auditing_policy_test.go:28-38 | "" and "/" are refused |
| SynapseWorkspaceExtendedAuditingPolicy.RejectsSubscriptionsWithoutValue | internal/services/synapse/parse/workspace_extended_auditing_policy_test.go:40-44 | "/subscriptions/" is refused |
| SynapseWorkspaceExtendedAuditingPolicy.RejectsWithoutResourceGroup | internal/services/synapse/parse/workspace_extended_auditing_policy_test.go:46-56 | an identifier that stops after the subscription, or at "resourceGroups/", is refused |
| SynapseWorkspaceExtendedAuditingPolicy.RejectsWithoutWorkspace | internal/services/synapse/parse/workspace_extended_auditing_policy_test.go:58-68 | an identifier that stops after the namespace, or at "workspaces/", is refused |
| SynapseWorkspaceExtendedAuditingPolicy.RejectsWithoutSetting | internal/services/synapse/parse/workspace_extended_auditing_policy_test.go:70-80 | an identifier that stops after the workspace, or at "extendedAuditingSettings/", is refused |
| SynapseWorkspaceExtendedAuditingPolicy.RecasedKeys | internal/services/synapse/parse/workspace_extended_auditing_policy_test.go:93-103 | the parser is case-sensitive: it accepts only the exact key spellings and reports the first recased key missing |
| SynapseWorkspaceExtendedAuditingPolicy.RejectsUpperCased | internal/services/synapse/parse/workspace_extended_auditing_policy_test.go:93-97 | the fully upper-cased identifier is refused for a missing subscription |
| ManagedHsmRoleDefinition.NewManagedHSMRoleDefinitionID | internal/services/managedhsm/parse/managed_hsm_role_definition_id.go:22-33 | an empty base URL, or one the URL parser refuses, is an error; otherwise the base URL is the parsed URL written back out, and scope and name are kept unchanged |
| ManagedHsmRoleDefinition.IdOfCanonical | internal/services/managedhsm/parse/managed_hsm_role_definition_id.go:35-44 | for a base `scheme://host/` and a non-empty name, `ID()` is the base without its '/', then scope, "RoleDefinition" and name joined by '/' |
| ManagedHsmRoleDefinition.IdWithEmptyName | internal/services/managedhsm/parse/managed_hsm_role_definition_id.go:35-44 | with an empty name, `ID()` drops the '/' the join leaves at the end |
| ManagedHsmRoleDefinition.ManagedHsmRoleDefinitionId.String | internal/services/managedhsm/parse/managed_hsm_role_definition_id.go:46-48 | `String()` is the same text as `ID()` |
| ManagedHsmRoleDefinition.ManagedHSMRoleDefinitionID | internal/services/managedhsm/parse/managed_hsm_role_definition_id.go:50-54 | an input the URL parser refuses gives InvalidUri; otherwise the result is the cut of the parsed URL |
| ManagedHsmRoleDefinition.ParseUrl | internal/services/managedhsm/parse/managed_hsm_role_definition_id.go:56-83 | a parsed identifier has the base `scheme://host/`, a non-empty scope and a '/'-free name; the cut never fails with InvalidUri |
| ManagedHsmRoleDefinition.ParseUrlOk | internal/services/managedhsm/parse/managed_hsm_role_definition_id.go:56-74 | a successful cut means the trimmed path is exactly scope, "RoleDefinition" and name joined by '/' |
| ManagedHsmRoleDefinition.ParseUrlCut | internal/services/managedhsm/parse/managed_hsm_role_definition_id.go:61-74 | a trimmed path of the form scope/type/name parses when the type is "RoleDefinition" and otherwise gives InvalidType with that type |
| ManagedHsmRoleDefinition.ParseUrlIff | internal/services/managedhsm/parse/managed_hsm_role_definition_id.go:56-83 | the cut gives an identifier exactly when its base is the URL's, its scope is non-empty, its name has no '/', and the trimmed path is scope/RoleDefinition/name |
| ManagedHsmRoleDefinition.ParseIff | internal/services/managedhsm/parse/managed_hsm_role_definition_id.go:50-83 | the same equivalence for the whole parser, from the input text |
| ManagedHsmRoleDefinition.TrimmedOnce | internal/services/managedhsm/parse/managed_hsm_role_definition_id.go:58-59 | the path loses exactly one leading and one trailing '/' |
| ManagedHsmRoleDefinition.SeparatorErrors | internal/services/managedhsm/parse/managed_hsm_role_definition_id.go:61-70 | "no name separator" exactly when the trimmed path has no '/' after its first character; otherwise "no type separator" exactly when the part before the last '/' has none |
| ManagedHsmRoleDefinition.OtherTypeRejected | internal/services/managedhsm/parse/managed_hsm_role_definition_id.go:71-74 | a segment other than "RoleDefinition" before the name is refused with that segment in the error |
| ManagedHsmRoleDefinition.TypeAsNameRejected | internal/services/managedhsm/parse/managed_hsm_role_definition_id.go:67-70 | a path `/{scope}/RoleDefinition` whose scope is one segment has no type separator |
| ManagedHsmRoleDefinition.RoundTrip | internal/services/managedhsm/parse/managed_hsm_role_definition_id.go:35-83 | with base `scheme://host/` where the host is a name of letters, digits, '-' and '.' with an optional numeric port (so no user information and nothing Go refuses in a host), a non-empty scope and a non-empty name free of '/', and no '?', '%' or control character in scope or name, parsing `ID()` gives back the same identifier |
| ManagedHsmRoleDefinition.FormatAfterParse | internal/services/managedhsm/parse/managed_hsm_role_definition_id.go:35-83 | rendering a parsed identifier gives `scheme://host/`, then the trimmed path, less one final '/' |
| ManagedHsmRoleDefinition.EmptyNameNotReparsed | internal/services/managedhsm/parse/managed_hsm_role_definition_id.go:35-83 | for a one-segment scope, an empty name is accepted by the parser, but the `ID()` of that identifier is refused for a missing type separator |
| ManagedHsmRoleDefinition.EmptyNameReparsedElsewhere | internal/services/managedhsm/parse/managed_hsm_role_definition_id.go:35-83 | for a scope ending in "/RoleDefinition" and an empty name, `ID()` is the text of the identifier with the scope one segment shorter and the name "RoleDefinition", and it parses back to that different identifier |
| ManagedHsmRoleDefinition.StarRejected | internal/services/managedhsm/parse/managed_hsm_role_definition_id.go:50-64 | "*" is a valid request URI, and is refused for a missing name separator, not as an invalid URI |
| Urls.ParseRequestUri | internal/services/managedhsm/parse/managed_hsm_role_definition_id.go:51-54 | the empty input and any input with a control character are refused; a URL without a scheme has no host and is "*" or starts with '/' |
| Urls.Unescape | internal/services/managedhsm/parse/managed_hsm_role_definition_id.go:51-56 | text without '%' decodes to itself, and decoding never lengthens the text |
| Urls.BadEscapeRefused | internal/services/managedhsm/parse/managed_hsm_role_definition_id.go:51-54 | a '%' not followed by two hex digits makes the whole path invalid |
| Urls.TrailingPercentRefused | internal/services/managedhsm/parse/managed_hsm_role_definition_id.go:51-54 | an absolute path that ends in '%' is refused |
| Urls.EscapeDecoded | internal/services/managedhsm/parse/managed_hsm_role_definition_id.go:51-56 | an escape in the path is decoded: "/%41" is the path "/A" |
| Urls.StarIsPath | internal/services/managedhsm/parse/managed_hsm_role_definition_id.go:51-56 | "*" is accepted as the path "*" |
| Urls.ControlRefused | internal/services/managedhsm/parse/managed_hsm_role_definition_id.go:51-54 | a control character anywhere in the input makes it invalid |
| Urls.ParseSchemeHostPath | internal/services/managedhsm/parse/managed_hsm_role_definition_id.go:51-56 | `scheme://host/path` parses back into that scheme, host and path when the host has no '/', '?' or control character and the path needs no decoding; the model's host is the whole authority, whereas Go moves user information out of the host and refuses some hosts, which is why the role-definition round trip asks for a plain host |
| Urls.ParseAbsolutePath | internal/services/keyvault/sdk/keyvault/2021-06-01-preview/mhsmprivateendpointconnections/id_privateendpointconnection.go:43-46 | an absolute path without query, escape or control character parses to itself, with no scheme and no host |
| Text.Split | internal/services/keyvault/sdk/keyvault/2021-06-01-preview/mhsmprivateendpointconnections/id_privateendpointconnection.go:43-46 | the pieces hold no separator, and joined with it they give the input back |
| Text.SplitJoin | internal/services/keyvault/sdk/keyvault/2021-06-01-preview/mhsmprivateendpointconnections/id_privateendpointconnection.go:43-46 | splitting the join of separator-free parts gives the parts back |
| Text.IndexOf | internal/services/managedhsm/parse/managed_hsm_role_definition_id.go:51 | -1 when the character is absent, otherwise the index of its first occurrence |
| Text.LastIndex | internal/services/managedhsm/parse/managed_hsm_role_definition_id.go:61-67 | -1 when the character is absent, otherwise an index of it with none after it |
| Text.TrimPrefix | internal/services/managedhsm/parse/managed_hsm_role_definition_id.go:58 | a present prefix is removed once; otherwise the text is unchanged |
| Text.TrimSuffix | internal/services/managedhsm/parse/managed_hsm_role_definition_id.go:59 | a present suffix is removed once; otherwise the text is unchanged |

Members without a contract of their own are stated by the lemmas about them:
- `Text.Join`, `Grammars.Format` and the kinds' `ID()` by each kind's `IdIsFormat`, `Text.SplitJoin` and the round trips;
- `Text.EqualFold` by `Grammars.FindKey`, `Grammars.InsensitiveAcceptsRecased` and `Grammars.AmbiguousRejected`;
- `ResourceIds.TakeResourceGroup` by `Grammars.LowerResourceGroupsAccepted` and `Grammars.ResourceGroupsKeyRequired`.

## Left out

- `url.Parse` in `NewManagedHSMRoleDefinitionID` is not modelled. Its outcome is the
  `rendered` parameter: `None` when the URL parser refuses the base, or the URL written back out.
- Urls.ParseSchemeHostPath: the model's host is the whole authority after "//", so the lemma
  does not capture Go moving user information out of the host or refusing hosts it rejects;
  the role-definition round trip therefore asks for a plain host.
- `url.ParseRequestURI` is modelled only as far as the parsers depend on it. Left out:
  - host and port validation, and the decoding of escapes in the host;
  - user information;
  - bytes: Go decodes an escape to one byte and works on UTF-8 bytes, the model decodes it to
    the character with that code, so escapes of multi-byte characters are not modelled.
  A scheme is ASCII letters, digits, '+', '-' and '.', starting with a letter, and is
  lower-cased. As in Go, a '#' is part of the path, and the opaque form `scheme:rest` is
  accepted with an empty path.
- `strings.EqualFold` is modelled with ASCII case folding. Go's full Unicode folding is left out.
- Go's `%q` quoting in `String()` is modelled as plain double quotes around the value.
  Escaping of quotes, backslashes and control characters is left out.
- Error texts are modelled as an error datatype (`ParseError`, `RoleDefinitionError`), not as
  the messages.
  - A missing subscription or resource group is reported as `MissingElement` of that key.
  - The role-definition errors name the failing step.
- Go's nil pointers are modelled as the `Err` side of a `Result`.
- The library `resourceids.ParseAzureResourceID` is not part of this model's source. It is
  modelled from how the parsers use it:
  - the path is cut into key/value pairs;
  - an odd number of segments, an empty key or an empty value is an error;
  - the first "subscriptions" and "providers" pairs and the "resourceGroups" pair are taken
    apart, and when there is no "resourceGroups" pair the lower-case "resourcegroups" one is
    taken instead: this fallback is stated from the library's behaviour, not from source in
    this model, and Grammars.ResourceGroupsKeyRequired and
    Grammars.LowerResourceGroupsAccepted rest on it;
  - every other pair goes into a map.
- The generated parser sources of the Key Vault private-endpoint connection, the Key Vault vault
  and the Synapse extended-auditing policy are not part of this model's source.
  - Their parsers are the engine's parser for their grammar, which their test files pin down.
  - The Synapse parser comes from an older generator without an insensitive variant, and only
    its strict parse is modelled.
- The test vectors are stated with symbolic field values. A lemma about the test's literal
  values would be an instance of them.
- Each fully upper-cased vector is stated as its "/KEY/value" pairs (with `Pairs`) rather than
  as one literal.
- KeyVaultPrivateEndpointConnections.RecasedKeys, KeyVaultVaults.RecasedKey,
  MhsmPrivateEndpointConnections.InsensitiveRecasedKeys: only the casing of the resource-type
  keys is varied, as in the tests. The casing of "subscriptions", "resourceGroups" and
  "providers" is covered by Grammars.SubscriptionsKeyExact, Grammars.ResourceGroupsKeyRequired
  and Grammars.LowerResourceGroupsAccepted.
- ManagedHsmRoleDefinition.RoundTrip: the host must be a plain host name with an optional
  numeric port. Go's request-URI parser moves user information ("u@h") out of the host, so
  `ID()` of a parsed identifier would render "h", and it refuses hosts with characters such
  as ' ' or '|' or a non-numeric port; the URL model does neither, so the lemma asks for a
  host on which the model and Go agree. Scope or name containing '?', '%' or a control
  character are excluded. The URL parser cuts the query at '?', decodes escapes and refuses
  control characters, and `ID()` writes these fields without escaping them, so such an
  identifier does not come back unchanged.
- Grammars.ParseFormatParse: it holds only for parsed fields the URL parser keeps verbatim
  (no '?', '%' or control character). A parsed field can hold any of these once decoded, as
  Urls.EscapeDecoded shows, and `ID()` writes it back without escaping. A decoded "%" at the
  end of the rendering is then refused (Urls.TrailingPercentRefused), and a decoded '?' cuts
  the query.
- The round-trip lemmas of the identifier kinds (Grammars.RoundTrip and the kinds' RoundTrip)
  hold for fields with no '?', '%' or control character, for the same reason.

Points where the code behaves otherwise than the identifier format suggests:
- **Case folding.** The insensitive parsers fold only the resource-type keys.
  "subscriptions" and "providers" must be spelled exactly by both parsers, and the resource
  group key as "resourceGroups" or "resourcegroups", because the library recognises only
  those spellings.
- **Key order.** The library keeps the pairs in a map. Pair order after the scaffold is
  therefore free, and a repeated key keeps its last value.
- **Ambiguous keys.** When two path keys match one key up to case, the insensitive search takes
  one in map order. The other is left behind, so the parse ends in an error either way.
- **Role-definition names.** The parser accepts an empty name (a path ending in
  "/RoleDefinition//"). The `ID()` of that identifier drops the final '/', and it no longer
  parses back to the same identifier: with a one-segment scope it is refused, and with a
  scope ending in "/RoleDefinition" it parses to a different identifier.
