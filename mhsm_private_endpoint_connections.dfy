/** The Managed HSM private-endpoint-connection identifier: its record, ID(), String(), and
    the strict and insensitive parsers, written out step by step as the generated code is.

    The short lemmas about this kind's literals (its keys and its namespace) each state one
    literal fact, as in the other identifier kinds: one lemma over all of them costs the
    solver far more. */
module MhsmPrivateEndpointConnections {
  import opened Wrappers
  import opened Text
  import opened ResourceIds
  import opened Grammars

  /** "/subscriptions/{sub}/resourceGroups/{rg}/providers/Microsoft.KeyVault/
      managedHSMs/{managedHsmName}/privateEndpointConnections/{name}" */
  const IdGrammar := Grammar("Microsoft.KeyVault", ["managedHSMs", "privateEndpointConnections"])

  /** Go's %q for a string without characters it must escape. */
  function Quote(s: string): string
  {
    "\"" + s + "\""
  }

  datatype PrivateEndpointConnectionId = PrivateEndpointConnectionId(
    subscriptionId: string,
    resourceGroup: string,
    managedHsmName: string,
    name: string)
  {
    /** The canonical path of the connection. */
    function ID(): string
    {
      "/subscriptions/" + subscriptionId + "/resourceGroups/" + resourceGroup
        + "/providers/Microsoft.KeyVault/managedHSMs/" + managedHsmName
        + "/privateEndpointConnections/" + name
    }

    /** A human-readable description naming the connection, its HSM and its resource group,
        in that order; the subscription is not part of it. */
    function String(): (r: string)
      ensures r == "Private Endpoint Connection: (" + "Name " + Quote(name)
                   + " / " + "Managed H S M Name " + Quote(managedHsmName)
                   + " / " + "Resource Group " + Quote(resourceGroup) + ")"
    {
      var segments := [
        "Name " + Quote(name),
        "Managed H S M Name " + Quote(managedHsmName),
        "Resource Group " + Quote(resourceGroup)];
      JoinThree(segments[0], segments[1], segments[2], " / ");
      "Private Endpoint Connection: (" + Join(segments, " / ") + ")"
    }

    /** The grammar's view of the identifier. */
    function ToFields(): Fields
    {
      Fields(subscriptionId, resourceGroup, [managedHsmName, name])
    }
  }

  /** NewPrivateEndpointConnectionID: the record of its four arguments, unchanged. */
  function NewPrivateEndpointConnectionID(subscriptionId: string, resourceGroup: string,
                                          managedHsmName: string, name: string)
    : (id: PrivateEndpointConnectionId)
    ensures id.subscriptionId == subscriptionId && id.resourceGroup == resourceGroup
    ensures id.managedHsmName == managedHsmName && id.name == name
  {
    PrivateEndpointConnectionId(subscriptionId, resourceGroup, managedHsmName, name)
  }

  /** The record a parse of this grammar builds, or its error. */
  function Lift(r: Result<Fields, ParseError>): Result<PrivateEndpointConnectionId, ParseError>
    requires r.Ok? ==> |r.value.names| == 2
  {
    match r
    case Err(e) => Err(e)
    case Ok(f) => Ok(PrivateEndpointConnectionId(f.subscriptionId, f.resourceGroup, f.names[0], f.names[1]))
  }

  /** What the parser in `mode` returns for `input`. */
  ghost function Spec(mode: Mode, input: string): Result<PrivateEndpointConnectionId, ParseError>
  {
    Lift(Parse(IdGrammar, mode, input))
  }

  /** The grammar's keys, as a value the verifier does not unfold. */
  lemma Keys() returns (keys: seq<string>)
    ensures keys == IdGrammar.keys && keys[0] == "managedHSMs" && keys[1] == "privateEndpointConnections"
    ensures FoldDistinct(keys)
  {
    GrammarWellFormed();
    keys := IdGrammar.keys;
  }

  /** Spec once the library's split is known, case by case. */
  lemma SpecOf(mode: Mode, input: string, c: Components)
    requires SplitResourceId(input) == Ok(c)
    ensures c.subscriptionId == "" ==> Spec(mode, input) == Err(MissingElement("subscriptions"))
    ensures c.subscriptionId != "" && c.resourceGroup == "" ==>
      Spec(mode, input) == Err(MissingElement("resourceGroups"))
    ensures c.subscriptionId != "" && c.resourceGroup != "" ==>
      var pops := PopAll(c.path, IdGrammar.keys, mode, false);
      && (pops.Err? ==> Spec(mode, input) == Err(pops.error))
      && (pops.Ok? ==>
            Spec(mode, input) == Ok(PrivateEndpointConnectionId(
              c.subscriptionId, c.resourceGroup, pops.value[0], pops.value[1])))
  {
    ParseOf(IdGrammar, mode, input, c);
  }

  lemma NamespaceIsPlain()
    ensures Plain("Microsoft.KeyVault")
  {
  }

  lemma FirstKeyIsPlain()
    ensures Plain("managedHSMs")
  {
  }

  lemma SecondKeyIsPlain()
    ensures Plain("privateEndpointConnections")
  {
  }

  lemma GrammarWellFormed()
    ensures WellFormed(IdGrammar)
  {
    NamespaceIsPlain();
    FirstKeyIsPlain();
    SecondKeyIsPlain();
    WellFormedTwo("Microsoft.KeyVault", "managedHSMs", "privateEndpointConnections");
  }

  // The literal runs of the template against the grammar's pieces, one per lemma: the
  // solver compares long literals cheaply only one at a time.
  lemma ProvidersRun()
    ensures "/providers/Microsoft.KeyVault/" == "/providers/" + IdGrammar.namespace + "/"
  {
    ProvidersHead();
    NamespaceTail();
  }

  lemma ProvidersHead()
    ensures "/providers/Microsoft.KeyVault/" == "/providers/" + "Microsoft.KeyVault/"
  {
  }

  lemma NamespaceTail()
    ensures "Microsoft.KeyVault/" == "Microsoft.KeyVault" + "/"
  {
  }

  lemma FirstKeyRun()
    ensures "/providers/Microsoft.KeyVault/managedHSMs/" == "/providers/" + IdGrammar.namespace + "/" + IdGrammar.keys[0] + "/"
  {
    ProvidersRun();
    FirstKeyText();
  }

  lemma FirstKeyText()
    ensures "/providers/Microsoft.KeyVault/managedHSMs/" == "/providers/Microsoft.KeyVault/" + "managedHSMs" + "/"
  {
  }

  lemma SecondKeyRun()
    ensures "/privateEndpointConnections/" == "/" + IdGrammar.keys[1] + "/"
  {
    SecondKeyText();
  }

  lemma SecondKeyText()
    ensures "/privateEndpointConnections/" == "/" + "privateEndpointConnections" + "/"
  {
  }

  lemma FirstKeyAloneRun()
    ensures "/managedHSMs/" == "/" + IdGrammar.keys[0] + "/"
  {
  }

  /** ID() is the grammar's formatter applied to the identifier's fields. */
  lemma IdIsFormat(id: PrivateEndpointConnectionId)
    ensures id.ID() == Format(IdGrammar, id.ToFields())
  {
    FirstKeyRun();
    SecondKeyRun();
    FormatTwo(IdGrammar.namespace, IdGrammar.keys[0], IdGrammar.keys[1], id.ToFields(),
              "/providers/Microsoft.KeyVault/managedHSMs/", "/privateEndpointConnections/");
    assert Grammar(IdGrammar.namespace, [IdGrammar.keys[0], IdGrammar.keys[1]]) == IdGrammar;
  }

  /** ParsePrivateEndpointConnectionID: the library split, the subscription and resource-group
      checks, a pop of "managedHSMs" and of "privateEndpointConnections" with their exact
      spelling, and the leftover check. */
  method ParsePrivateEndpointConnectionID(input: string)
    returns (r: Result<PrivateEndpointConnectionId, ParseError>)
    ensures r == Spec(Strict, input)
  {
    var parsed := ParseAzureResourceID(input);
    if parsed.Err? {
      return Err(parsed.error);
    }
    var id := parsed.value;
    SpecOf(Strict, input, SplitResourceId(input).value);
    var subscriptionId, resourceGroup := id.subscriptionId, id.resourceGroup;
    if subscriptionId == "" {
      return Err(MissingElement("subscriptions"));
    }
    if resourceGroup == "" {
      return Err(MissingElement("resourceGroups"));
    }
    var names := PopNames(id, Strict);
    if names.Err? {
      return Err(names.error);
    }
    return Ok(PrivateEndpointConnectionId(subscriptionId, resourceGroup, names.value.0, names.value.1));
  }

  /** ParsePrivateEndpointConnectionIDInsensitively: as the strict parser, but each key is
      first looked up in the path up to case, in map order. Whichever spelling the search
      takes, the result is the one Spec gives. */
  method ParsePrivateEndpointConnectionIDInsensitively(input: string)
    returns (r: Result<PrivateEndpointConnectionId, ParseError>)
    ensures r == Spec(Insensitive, input)
  {
    var parsed := ParseAzureResourceID(input);
    if parsed.Err? {
      return Err(parsed.error);
    }
    var id := parsed.value;
    SpecOf(Insensitive, input, SplitResourceId(input).value);
    var subscriptionId, resourceGroup := id.subscriptionId, id.resourceGroup;
    if subscriptionId == "" {
      return Err(MissingElement("subscriptions"));
    }
    if resourceGroup == "" {
      return Err(MissingElement("resourceGroups"));
    }
    var names := PopNames(id, Insensitive);
    if names.Err? {
      return Err(names.error);
    }
    return Ok(PrivateEndpointConnectionId(subscriptionId, resourceGroup, names.value.0, names.value.1));
  }

  /** The part both parsers share once the resource group is known: the pop of the
      "managedHSMs" key, then of the "privateEndpointConnections" key (each spelled exactly
      when strict, found up to case when insensitive), then the leftover check. */
  method PopNames(id: ResourceId, mode: Mode) returns (r: Result<(string, string), ParseError>)
    modifies id`path
    ensures var pops := PopAll(old(id.path), IdGrammar.keys, mode, false);
      && (pops.Err? ==> r == Err(pops.error))
      && (pops.Ok? ==> r == Ok((pops.value[0], pops.value[1])))
  {
    ghost var start := id.path;
    ghost var keys := Keys();
    TrackStart(start, keys, mode);
    ghost var names: seq<string> := [];
    ghost var leftover: set<string>;
    var managedHsmName;
    managedHsmName, leftover := PopNext(id, "managedHSMs", mode, start, keys, names, {}, 0);
    if managedHsmName.Err? {
      return Err(managedHsmName.error);
    }
    names := names + [managedHsmName.value];
    var name;
    name, leftover := PopNext(id, "privateEndpointConnections", mode, start, keys, names, leftover, 1);
    if name.Err? {
      return Err(name.error);
    }
    names := names + [name.value];
    TrackDone(start, keys, mode, names, id.path, leftover);
    var check := id.ValidateNoEmptySegments();
    if check.Fail? {
      return Err(check.error);
    }
    return Ok((managedHsmName.value, name.value));
  }

  /** Fields that are single non-empty segments, as every parse returns. */
  predicate Plain4(id: PrivateEndpointConnectionId)
  {
    Plain(id.subscriptionId) && Plain(id.resourceGroup) && Plain(id.managedHsmName) && Plain(id.name)
  }

  /** Both parsers give back the identifier ID() renders. */
  lemma RoundTrip(id: PrivateEndpointConnectionId, mode: Mode)
    requires Plain4(id)
    ensures Spec(mode, id.ID()) == Ok(id)
  {
    IdIsFormat(id);
    GrammarWellFormed();
    Grammars.RoundTrip(IdGrammar, mode, id.ToFields(), IdGrammar.namespace);
    assert Grammar(IdGrammar.namespace, IdGrammar.keys) == IdGrammar;
  }

  /** The segment after "providers" is never compared with "Microsoft.KeyVault": any plain
      namespace there parses to the same identifier. */
  lemma AnyNamespace(id: PrivateEndpointConnectionId, mode: Mode, ns: string)
    requires Plain4(id) && Plain(ns)
    ensures Spec(mode, "/subscriptions/" + id.subscriptionId + "/resourceGroups/" + id.resourceGroup
                       + "/providers/" + ns + "/managedHSMs/" + id.managedHsmName
                       + "/privateEndpointConnections/" + id.name) == Ok(id)
  {
    FirstKeyAloneRun();
    SecondKeyRun();
    FormatTwoNamespace(ns, IdGrammar.keys[0], IdGrammar.keys[1], id.ToFields(),
                       "/managedHSMs/", "/privateEndpointConnections/");
    assert [IdGrammar.keys[0], IdGrammar.keys[1]] == IdGrammar.keys;
    GrammarWellFormed();
    Grammars.RoundTrip(IdGrammar, mode, id.ToFields(), ns);
  }

  /** The insensitive parser accepts the resource-type keys in any casing. */
  lemma InsensitiveRecasedKeys(id: PrivateEndpointConnectionId, hsmKey: string, connectionsKey: string)
    requires Plain4(id)
    requires EqualFold(hsmKey, "managedHSMs") && EqualFold(connectionsKey, "privateEndpointConnections")
    ensures Spec(Insensitive, "/subscriptions/" + id.subscriptionId + "/resourceGroups/" + id.resourceGroup
                              + "/providers/Microsoft.KeyVault/" + hsmKey + "/" + id.managedHsmName
                              + "/" + connectionsKey + "/" + id.name) == Ok(id)
  {
    GrammarWellFormed();
    ProvidersRun();
    InsensitiveRecasedTwo(IdGrammar, id.ToFields(), hsmKey, connectionsKey, "/providers/Microsoft.KeyVault/");
  }

  /** The strict parser accepts only the canonical spelling of the resource-type keys, and
      otherwise reports the first key spelled otherwise as missing. */
  lemma StrictRecasedKeys(id: PrivateEndpointConnectionId, hsmKey: string, connectionsKey: string)
    requires Plain4(id)
    requires EqualFold(hsmKey, "managedHSMs") && EqualFold(connectionsKey, "privateEndpointConnections")
    ensures Spec(Strict, "/subscriptions/" + id.subscriptionId + "/resourceGroups/" + id.resourceGroup
                         + "/providers/Microsoft.KeyVault/" + hsmKey + "/" + id.managedHsmName
                         + "/" + connectionsKey + "/" + id.name) ==
      if hsmKey != "managedHSMs" then Err(MissingElement("managedHSMs"))
      else if connectionsKey != "privateEndpointConnections" then Err(MissingElement("privateEndpointConnections"))
      else Ok(id)
  {
    GrammarWellFormed();
    ProvidersRun();
    StrictRecasedTwo(IdGrammar, id.ToFields(), hsmKey, connectionsKey, "/providers/Microsoft.KeyVault/");
  }
}
