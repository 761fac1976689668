/** The Key Vault private-endpoint-connection identifier, as its generated test file pins it
    down: the formatter, the strict and the insensitive parser on each of its vectors. The
    vectors' placeholder values ("{subscriptionId}", "{vaultName}", ...) are parameters here:
    any plain segment behaves as they do.

    The short lemmas about this kind's literals (its keys, its namespace and their
    upper-cased forms) each state one literal fact, as in the other identifier kinds: one
    lemma over all of them costs the solver far more. */
module KeyVaultPrivateEndpointConnections {
  import opened Wrappers
  import opened Text
  import opened ResourceIds
  import opened Grammars

  /** "/subscriptions/{sub}/resourceGroups/{rg}/providers/Microsoft.KeyVault/
      vaults/{vaultName}/privateEndpointConnections/{name}" */
  const IdGrammar := Grammar("Microsoft.KeyVault", ["vaults", "privateEndpointConnections"])

  datatype PrivateEndpointConnectionId = PrivateEndpointConnectionId(
    subscriptionId: string,
    resourceGroup: string,
    vaultName: string,
    name: string)
  {
    /** The canonical path of the connection. */
    function ID(): string
    {
      "/subscriptions/" + subscriptionId + "/resourceGroups/" + resourceGroup
        + "/providers/Microsoft.KeyVault/vaults/" + vaultName
        + "/privateEndpointConnections/" + name
    }

    function ToFields(): Fields
    {
      Fields(subscriptionId, resourceGroup, [vaultName, name])
    }
  }

  /** NewPrivateEndpointConnectionID: the record of its four arguments, unchanged. */
  function NewPrivateEndpointConnectionID(subscriptionId: string, resourceGroup: string,
                                          vaultName: string, name: string)
    : (id: PrivateEndpointConnectionId)
    ensures id.subscriptionId == subscriptionId && id.resourceGroup == resourceGroup
    ensures id.vaultName == vaultName && id.name == name
  {
    PrivateEndpointConnectionId(subscriptionId, resourceGroup, vaultName, name)
  }

  /** The record a parse of this grammar builds, or its error. */
  function Lift(r: Result<Fields, ParseError>): Result<PrivateEndpointConnectionId, ParseError>
    requires r.Ok? ==> |r.value.names| == 2
  {
    match r
    case Err(e) => Err(e)
    case Ok(f) => Ok(PrivateEndpointConnectionId(f.subscriptionId, f.resourceGroup, f.names[0], f.names[1]))
  }

  /** What the parser in `mode` returns for `input`. */
  ghost function Spec(mode: Mode, input: string): Result<PrivateEndpointConnectionId, ParseError>
  {
    Lift(Parse(IdGrammar, mode, input))
  }

  lemma NamespaceIsPlain()
    ensures Plain("Microsoft.KeyVault")
  {
  }

  lemma FirstKeyIsPlain()
    ensures Plain("vaults")
  {
  }

  lemma SecondKeyIsPlain()
    ensures Plain("privateEndpointConnections")
  {
  }

  lemma GrammarWellFormed()
    ensures WellFormed(IdGrammar)
  {
    NamespaceIsPlain();
    FirstKeyIsPlain();
    SecondKeyIsPlain();
    WellFormedTwo("Microsoft.KeyVault", "vaults", "privateEndpointConnections");
  }

  // The literal runs of the template against the grammar's pieces, one per lemma: the
  // solver compares long literals cheaply only one at a time.
  lemma ProvidersRun()
    ensures "/providers/Microsoft.KeyVault/" == "/providers/" + IdGrammar.namespace + "/"
  {
    ProvidersHead();
    NamespaceTail();
  }

  lemma ProvidersHead()
    ensures "/providers/Microsoft.KeyVault/" == "/providers/" + "Microsoft.KeyVault/"
  {
  }

  lemma NamespaceTail()
    ensures "Microsoft.KeyVault/" == "Microsoft.KeyVault" + "/"
  {
  }

  lemma FirstKeyRun()
    ensures "/providers/Microsoft.KeyVault/vaults/" == "/providers/" + IdGrammar.namespace + "/" + IdGrammar.keys[0] + "/"
  {
    ProvidersRun();
    FirstKeyText();
  }

  lemma FirstKeyText()
    ensures "/providers/Microsoft.KeyVault/vaults/" == "/providers/Microsoft.KeyVault/" + "vaults" + "/"
  {
  }

  lemma SecondKeyRun()
    ensures "/privateEndpointConnections/" == "/" + IdGrammar.keys[1] + "/"
  {
    SecondKeyText();
  }

  lemma SecondKeyText()
    ensures "/privateEndpointConnections/" == "/" + "privateEndpointConnections" + "/"
  {
  }

  /** ParsePrivateEndpointConnectionID: the strict parser. */
  method ParsePrivateEndpointConnectionID(input: string)
    returns (r: Result<PrivateEndpointConnectionId, ParseError>)
    ensures r == Spec(Strict, input)
  {
    GrammarWellFormed();
    var fields := ParseResourceId(IdGrammar, Strict, input);
    r := Lift(fields);
  }

  /** ParsePrivateEndpointConnectionIDInsensitively: the parser that accepts the
      resource-type keys in any casing. */
  method ParsePrivateEndpointConnectionIDInsensitively(input: string)
    returns (r: Result<PrivateEndpointConnectionId, ParseError>)
    ensures r == Spec(Insensitive, input)
  {
    GrammarWellFormed();
    var fields := ParseResourceId(IdGrammar, Insensitive, input);
    r := Lift(fields);
  }

  /** ID() is the grammar's formatter applied to the identifier's fields. */
  lemma IdIsFormat(id: PrivateEndpointConnectionId)
    ensures id.ID() == Format(IdGrammar, id.ToFields())
  {
    FirstKeyRun();
    SecondKeyRun();
    FormatTwo(IdGrammar.namespace, IdGrammar.keys[0], IdGrammar.keys[1], id.ToFields(),
              "/providers/Microsoft.KeyVault/vaults/", "/privateEndpointConnections/");
    assert Grammar(IdGrammar.namespace, [IdGrammar.keys[0], IdGrammar.keys[1]]) == IdGrammar;
  }

  /** The valid vector: both parsers give back the identifier ID() renders. */
  lemma RoundTrip(id: PrivateEndpointConnectionId, mode: Mode)
    requires Plain(id.subscriptionId) && Plain(id.resourceGroup) && Plain(id.vaultName) && Plain(id.name)
    ensures Spec(mode, id.ID()) == Ok(id)
  {
    IdIsFormat(id);
    GrammarWellFormed();
    Grammars.RoundTrip(IdGrammar, mode, id.ToFields(), IdGrammar.namespace);
    assert Grammar(IdGrammar.namespace, IdGrammar.keys) == IdGrammar;
  }

  /** The vectors "" and "/": refused by both parsers. */
  lemma RejectsEmptyAndRoot(mode: Mode)
    ensures Spec(mode, "") == Err(InvalidUri)
    ensures Spec(mode, "/") == Err(OddSegmentCount)
  {
    EmptyRejected(IdGrammar, mode);
    RootRejected(IdGrammar, mode);
  }

  /** The vector "/subscriptions/": a key without its value. */
  lemma RejectsSubscriptionsWithoutValue(mode: Mode)
    ensures Spec(mode, "/" + "subscriptions" + "/") == Err(OddSegmentCount)
  {
    KeyWithoutValueRejected(IdGrammar, mode, "subscriptions");
  }

  /** The vectors that stop in the resource group. */
  lemma RejectsWithoutResourceGroup(mode: Mode, s: string)
    requires Plain(s)
    ensures Spec(mode, "/subscriptions/" + s + "/") == Err(MissingElement("resourceGroups"))
    ensures Spec(mode, "/subscriptions/" + s + "/resourceGroups/") == Err(OddSegmentCount)
  {
    SubscriptionOnlyRejected(IdGrammar, mode, s);
    ResourceGroupWithoutValueRejected(IdGrammar, mode, s);
  }

  /** The vectors that stop at the vault. */
  lemma RejectsWithoutVault(mode: Mode, s: string, r: string)
    requires Plain(s) && Plain(r)
    ensures Spec(mode, "/subscriptions/" + s + "/resourceGroups/" + r + "/providers/Microsoft.KeyVault/")
         == Err(MissingElement("vaults"))
    ensures Spec(mode, "/subscriptions/" + s + "/resourceGroups/" + r + "/providers/Microsoft.KeyVault/vaults/")
         == Err(OddSegmentCount)
  {
    GrammarWellFormed();
    ProvidersRun();
    FirstKeyRun();
    NamespaceOnlyRejected(IdGrammar, mode, s, r, "/providers/Microsoft.KeyVault/");
    FirstValueMissingRejected(IdGrammar, mode, s, r, "/providers/Microsoft.KeyVault/vaults/");
  }

  /** The vectors that stop at the connection. */
  lemma RejectsWithoutConnection(mode: Mode, s: string, r: string, v: string)
    requires Plain(s) && Plain(r) && Plain(v)
    ensures Spec(mode, "/subscriptions/" + s + "/resourceGroups/" + r + "/providers/Microsoft.KeyVault/vaults/"
                       + v + "/") == Err(MissingElement("privateEndpointConnections"))
    ensures Spec(mode, "/subscriptions/" + s + "/resourceGroups/" + r + "/providers/Microsoft.KeyVault/vaults/"
                       + v + "/privateEndpointConnections/") == Err(OddSegmentCount)
  {
    GrammarWellFormed();
    FirstKeyRun();
    SecondKeyRun();
    SecondKeyMissingRejected(IdGrammar, mode, s, r, v, "/providers/Microsoft.KeyVault/vaults/");
    SecondValueMissingRejected(IdGrammar, mode, s, r, v, "/providers/Microsoft.KeyVault/vaults/",
                               "/privateEndpointConnections/");
  }

  /** Fields that are single non-empty segments, as every parse returns. */
  predicate Plain4(id: PrivateEndpointConnectionId)
  {
    Plain(id.subscriptionId) && Plain(id.resourceGroup) && Plain(id.vaultName) && Plain(id.name)
  }

  /** The resource-type keys spelled `vaultsKey` and `connectionsKey`, equal up to case to
      the canonical ones: the insensitive parser accepts them; the strict one only the
      canonical spelling, and otherwise names the first key spelled otherwise as missing. */
  lemma RecasedKeys(id: PrivateEndpointConnectionId, vaultsKey: string, connectionsKey: string)
    requires Plain4(id)
    requires EqualFold(vaultsKey, "vaults") && EqualFold(connectionsKey, "privateEndpointConnections")
    ensures var input := "/subscriptions/" + id.subscriptionId + "/resourceGroups/" + id.resourceGroup
                         + "/providers/Microsoft.KeyVault/" + vaultsKey + "/" + id.vaultName
                         + "/" + connectionsKey + "/" + id.name;
      && Spec(Insensitive, input) == Ok(id)
      && Spec(Strict, input) ==
           if vaultsKey != "vaults" then Err(MissingElement("vaults"))
           else if connectionsKey != "privateEndpointConnections" then Err(MissingElement("privateEndpointConnections"))
           else Ok(id)
  {
    GrammarWellFormed();
    ProvidersRun();
    InsensitiveRecasedTwo(IdGrammar, id.ToFields(), vaultsKey, connectionsKey, "/providers/Microsoft.KeyVault/");
    StrictRecasedTwo(IdGrammar, id.ToFields(), vaultsKey, connectionsKey, "/providers/Microsoft.KeyVault/");
  }

  /** The spellings of "vaults" in the insensitive vectors. */
  lemma VaultsSpellings()
    ensures EqualFold("vaults", "vaults") && EqualFold("VAULTS", "vaults") && EqualFold("VaUlTs", "vaults")
  {
  }

  /** The spellings of "privateEndpointConnections" in the insensitive vectors, each
      checked in three pieces. */
  lemma LowerConnections()
    ensures EqualFold("privateendpointconnections", "privateEndpointConnections")
  {
    ConnectionsSpelling("privatee", "ndpointc", "onnections");
    LowerConnectionsPieces();
  }

  lemma LowerConnectionsPieces()
    ensures "privatee" + "ndpointc" + "onnections" == "privateendpointconnections"
  {
  }

  lemma UpperConnections()
    ensures EqualFold("PRIVATEENDPOINTCONNECTIONS", "privateEndpointConnections")
  {
    ConnectionsSpelling("PRIVATEE", "NDPOINTC", "ONNECTIONS");
    UpperConnectionsPieces();
  }

  lemma UpperConnectionsPieces()
    ensures "PRIVATEE" + "NDPOINTC" + "ONNECTIONS" == "PRIVATEENDPOINTCONNECTIONS"
  {
  }

  lemma MixedConnections()
    ensures EqualFold("PrIvAtEeNdPoInTcOnNeCtIoNs", "privateEndpointConnections")
  {
    ConnectionsSpelling("PrIvAtEe", "NdPoInTc", "OnNeCtIoNs");
    MixedConnectionsPieces();
  }

  lemma MixedConnectionsPieces()
    ensures "PrIvAtEe" + "NdPoInTc" + "OnNeCtIoNs" == "PrIvAtEeNdPoInTcOnNeCtIoNs"
  {
  }

  /** Case-insensitive equality with the key, piece by piece. */
  lemma ConnectionsSpelling(a: string, b: string, c: string)
    requires EqualFold(a, "privateE") && EqualFold(b, "ndpointC") && EqualFold(c, "onnections")
    ensures EqualFold(a + b + c, "privateEndpointConnections")
  {
    EqualFoldAppend(a, b, "privateE", "ndpointC");
    EqualFoldAppend(a + b, c, "privateE" + "ndpointC", "onnections");
    ConnectionsPieces();
  }

  lemma ConnectionsPieces()
    ensures "privateE" + "ndpointC" + "onnections" == "privateEndpointConnections"
  {
  }

  /** The insensitive vectors with lower-, upper- and mixed-cased resource-type keys: all
      accepted, with the same identifier. */
  lemma InsensitiveVectors(id: PrivateEndpointConnectionId)
    requires Plain4(id)
    ensures Spec(Insensitive, "/subscriptions/" + id.subscriptionId + "/resourceGroups/" + id.resourceGroup
                              + "/providers/Microsoft.KeyVault/" + "vaults" + "/" + id.vaultName
                              + "/" + "privateendpointconnections" + "/" + id.name) == Ok(id)
    ensures Spec(Insensitive, "/subscriptions/" + id.subscriptionId + "/resourceGroups/" + id.resourceGroup
                              + "/providers/Microsoft.KeyVault/" + "VAULTS" + "/" + id.vaultName
                              + "/" + "PRIVATEENDPOINTCONNECTIONS" + "/" + id.name) == Ok(id)
    ensures Spec(Insensitive, "/subscriptions/" + id.subscriptionId + "/resourceGroups/" + id.resourceGroup
                              + "/providers/Microsoft.KeyVault/" + "VaUlTs" + "/" + id.vaultName
                              + "/" + "PrIvAtEeNdPoInTcOnNeCtIoNs" + "/" + id.name) == Ok(id)
  {
    VaultsSpellings();
    LowerConnections();
    UpperConnections();
    MixedConnections();
    RecasedKeys(id, "vaults", "privateendpointconnections");
    RecasedKeys(id, "VAULTS", "PRIVATEENDPOINTCONNECTIONS");
    RecasedKeys(id, "VaUlTs", "PrIvAtEeNdPoInTcOnNeCtIoNs");
  }

  /** The strict upper-cased vector, every key and value upper-cased, written as its
      "/key/value" pairs. "SUBSCRIPTIONS" is not the library's key, so both parsers report
      the subscription missing. */
  lemma RejectsUpperCased(mode: Mode, s: string, r: string, v: string, n: string)
    requires Plain(s) && Plain(r) && Plain(v) && Plain(n)
    ensures Spec(mode, Pairs(["SUBSCRIPTIONS", "RESOURCEGROUPS", "PROVIDERS", "VAULTS", "PRIVATEENDPOINTCONNECTIONS"],
                             [s, r, "MICROSOFT.KEYVAULT", v, n])) == Err(MissingElement("subscriptions"))
  {
    var keys := ["SUBSCRIPTIONS", "RESOURCEGROUPS", "PROVIDERS", "VAULTS", "PRIVATEENDPOINTCONNECTIONS"];
    UpperSubscriptions();
    UpperResourceGroups();
    UpperProviders();
    UpperPieces();
    var values := [s, r, "MICROSOFT.KEYVAULT", v, n];
    SubscriptionsKeyExact(IdGrammar, mode, keys, values, false);
    assert Pairs(keys, values) + (if false then "/" else "") == Pairs(keys, values);
  }

  lemma UpperPieces()
    ensures Plain("VAULTS") && "VAULTS" != "subscriptions"
    ensures Plain("PRIVATEENDPOINTCONNECTIONS") && "PRIVATEENDPOINTCONNECTIONS" != "subscriptions"
    ensures Plain("MICROSOFT.KEYVAULT")
  {
    UpperVaults();
    UpperConnectionsKey();
    UpperNamespace();
  }

  lemma UpperVaults()
    ensures Plain("VAULTS") && "VAULTS" != "subscriptions"
  {
  }

  lemma UpperConnectionsKey()
    ensures Plain("PRIVATEENDPOINTCONNECTIONS") && "PRIVATEENDPOINTCONNECTIONS" != "subscriptions"
  {
  }

  lemma UpperNamespace()
    ensures Plain("MICROSOFT.KEYVAULT")
  {
  }
}
