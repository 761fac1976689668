/** The Synapse workspace extended-auditing-policy identifier, as its test file pins it down:
    the formatter and the parser, which is strict only. The vectors' literal values
    ("resGroup1", "workspace1", ...) are parameters here: any plain segment behaves as they do.

    The short lemmas about this kind's literals (its keys, its namespace and their
    upper-cased forms) each state one literal fact, as in the other identifier kinds: one
    lemma over all of them costs the solver far more. */
module SynapseWorkspaceExtendedAuditingPolicy {
  import opened Wrappers
  import opened Text
  import opened ResourceIds
  import opened Grammars

  /** "/subscriptions/{sub}/resourceGroups/{rg}/providers/Microsoft.Synapse/
      workspaces/{workspaceName}/extendedAuditingSettings/{name}" */
  const IdGrammar := Grammar("Microsoft.Synapse", ["workspaces", "extendedAuditingSettings"])

  datatype WorkspaceExtendedAuditingPolicyId = WorkspaceExtendedAuditingPolicyId(
    subscriptionId: string,
    resourceGroup: string,
    workspaceName: string,
    extendedAuditingSettingName: string)
  {
    /** The canonical path of the policy. */
    function ID(): string
    {
      "/subscriptions/" + subscriptionId + "/resourceGroups/" + resourceGroup
        + "/providers/Microsoft.Synapse/workspaces/" + workspaceName
        + "/extendedAuditingSettings/" + extendedAuditingSettingName
    }

    function ToFields(): Fields
    {
      Fields(subscriptionId, resourceGroup, [workspaceName, extendedAuditingSettingName])
    }
  }

  /** NewWorkspaceExtendedAuditingPolicyID: the record of its four arguments, unchanged. */
  function NewWorkspaceExtendedAuditingPolicyID(subscriptionId: string, resourceGroup: string,
                                                workspaceName: string, extendedAuditingSettingName: string)
    : (id: WorkspaceExtendedAuditingPolicyId)
    ensures id.subscriptionId == subscriptionId && id.resourceGroup == resourceGroup
    ensures id.workspaceName == workspaceName && id.extendedAuditingSettingName == extendedAuditingSettingName
  {
    WorkspaceExtendedAuditingPolicyId(subscriptionId, resourceGroup, workspaceName, extendedAuditingSettingName)
  }

  /** The record a parse of this grammar builds, or its error. */
  function Lift(r: Result<Fields, ParseError>): Result<WorkspaceExtendedAuditingPolicyId, ParseError>
    requires r.Ok? ==> |r.value.names| == 2
  {
    match r
    case Err(e) => Err(e)
    case Ok(f) => Ok(WorkspaceExtendedAuditingPolicyId(f.subscriptionId, f.resourceGroup, f.names[0], f.names[1]))
  }

  /** What the parser returns for `input`: the identifier is parsed case-sensitively. */
  ghost function Spec(input: string): Result<WorkspaceExtendedAuditingPolicyId, ParseError>
  {
    Lift(Parse(IdGrammar, Strict, input))
  }

  lemma NamespaceIsPlain()
    ensures Plain("Microsoft.Synapse")
  {
  }

  lemma FirstKeyIsPlain()
    ensures Plain("workspaces")
  {
  }

  lemma SecondKeyIsPlain()
    ensures Plain("extendedAuditingSettings")
  {
  }

  lemma GrammarWellFormed()
    ensures WellFormed(IdGrammar)
  {
    NamespaceIsPlain();
    FirstKeyIsPlain();
    SecondKeyIsPlain();
    WellFormedTwo("Microsoft.Synapse", "workspaces", "extendedAuditingSettings");
  }

  // The literal runs of the template against the grammar's pieces, one per lemma: the
  // solver compares long literals cheaply only one at a time.
  lemma ProvidersRun()
    ensures "/providers/Microsoft.Synapse/" == "/providers/" + IdGrammar.namespace + "/"
  {
    ProvidersHead();
    NamespaceTail();
  }

  lemma ProvidersHead()
    ensures "/providers/Microsoft.Synapse/" == "/providers/" + "Microsoft.Synapse/"
  {
  }

  lemma NamespaceTail()
    ensures "Microsoft.Synapse/" == "Microsoft.Synapse" + "/"
  {
  }

  lemma FirstKeyRun()
    ensures "/providers/Microsoft.Synapse/workspaces/" == "/providers/" + IdGrammar.namespace + "/" + IdGrammar.keys[0] + "/"
  {
    ProvidersRun();
    FirstKeyText();
  }

  lemma FirstKeyText()
    ensures "/providers/Microsoft.Synapse/workspaces/" == "/providers/Microsoft.Synapse/" + "workspaces" + "/"
  {
  }

  lemma SecondKeyRun()
    ensures "/extendedAuditingSettings/" == "/" + IdGrammar.keys[1] + "/"
  {
    SecondKeyText();
  }

  lemma SecondKeyText()
    ensures "/extendedAuditingSettings/" == "/" + "extendedAuditingSettings" + "/"
  {
  }

  /** WorkspaceExtendedAuditingPolicyID: the parser. */
  method WorkspaceExtendedAuditingPolicyID(input: string) returns (r: Result<WorkspaceExtendedAuditingPolicyId, ParseError>)
    ensures r == Spec(input)
  {
    GrammarWellFormed();
    var fields := ParseResourceId(IdGrammar, Strict, input);
    r := Lift(fields);
  }

  /** ID() is the grammar's formatter applied to the identifier's fields. */
  lemma IdIsFormat(id: WorkspaceExtendedAuditingPolicyId)
    ensures id.ID() == Format(IdGrammar, id.ToFields())
  {
    FirstKeyRun();
    SecondKeyRun();
    FormatTwo(IdGrammar.namespace, IdGrammar.keys[0], IdGrammar.keys[1], id.ToFields(),
              "/providers/Microsoft.Synapse/workspaces/", "/extendedAuditingSettings/");
    assert Grammar(IdGrammar.namespace, [IdGrammar.keys[0], IdGrammar.keys[1]]) == IdGrammar;
  }

  /** Fields that are single non-empty segments, as every parse returns. */
  predicate Plain4(id: WorkspaceExtendedAuditingPolicyId)
  {
    Plain(id.subscriptionId) && Plain(id.resourceGroup) && Plain(id.workspaceName)
      && Plain(id.extendedAuditingSettingName)
  }

  /** The valid vector: the parser gives back the identifier ID() renders. */
  lemma RoundTrip(id: WorkspaceExtendedAuditingPolicyId)
    requires Plain4(id)
    ensures Spec(id.ID()) == Ok(id)
  {
    IdIsFormat(id);
    GrammarWellFormed();
    Grammars.RoundTrip(IdGrammar, Strict, id.ToFields(), IdGrammar.namespace);
    assert Grammar(IdGrammar.namespace, IdGrammar.keys) == IdGrammar;
  }

  /** The vectors "" and "/". */
  lemma RejectsEmptyAndRoot()
    ensures Spec("") == Err(InvalidUri)
    ensures Spec("/") == Err(OddSegmentCount)
  {
    EmptyRejected(IdGrammar, Strict);
    RootRejected(IdGrammar, Strict);
  }

  /** The vector "/subscriptions/": a key without its value. */
  lemma RejectsSubscriptionsWithoutValue()
    ensures Spec("/" + "subscriptions" + "/") == Err(OddSegmentCount)
  {
    KeyWithoutValueRejected(IdGrammar, Strict, "subscriptions");
  }

  /** The vectors that stop in the resource group. */
  lemma RejectsWithoutResourceGroup(s: string)
    requires Plain(s)
    ensures Spec("/subscriptions/" + s + "/") == Err(MissingElement("resourceGroups"))
    ensures Spec("/subscriptions/" + s + "/resourceGroups/") == Err(OddSegmentCount)
  {
    SubscriptionOnlyRejected(IdGrammar, Strict, s);
    ResourceGroupWithoutValueRejected(IdGrammar, Strict, s);
  }

  /** The vectors that stop at the workspace. */
  lemma RejectsWithoutWorkspace(s: string, r: string)
    requires Plain(s) && Plain(r)
    ensures Spec("/subscriptions/" + s + "/resourceGroups/" + r + "/providers/Microsoft.Synapse/")
         == Err(MissingElement("workspaces"))
    ensures Spec("/subscriptions/" + s + "/resourceGroups/" + r + "/providers/Microsoft.Synapse/workspaces/")
         == Err(OddSegmentCount)
  {
    GrammarWellFormed();
    ProvidersRun();
    FirstKeyRun();
    NamespaceOnlyRejected(IdGrammar, Strict, s, r, "/providers/Microsoft.Synapse/");
    FirstValueMissingRejected(IdGrammar, Strict, s, r, "/providers/Microsoft.Synapse/workspaces/");
  }

  /** The vectors that stop at the auditing setting. */
  lemma RejectsWithoutSetting(s: string, r: string, w: string)
    requires Plain(s) && Plain(r) && Plain(w)
    ensures Spec("/subscriptions/" + s + "/resourceGroups/" + r + "/providers/Microsoft.Synapse/workspaces/"
                 + w + "/") == Err(MissingElement("extendedAuditingSettings"))
    ensures Spec("/subscriptions/" + s + "/resourceGroups/" + r + "/providers/Microsoft.Synapse/workspaces/"
                 + w + "/extendedAuditingSettings/") == Err(OddSegmentCount)
  {
    GrammarWellFormed();
    FirstKeyRun();
    SecondKeyRun();
    SecondKeyMissingRejected(IdGrammar, Strict, s, r, w, "/providers/Microsoft.Synapse/workspaces/");
    SecondValueMissingRejected(IdGrammar, Strict, s, r, w, "/providers/Microsoft.Synapse/workspaces/",
                               "/extendedAuditingSettings/");
  }

  /** The parser is case-sensitive in the resource-type keys: a key spelled otherwise than
      canonically is reported missing, the first such key first. */
  lemma RecasedKeys(id: WorkspaceExtendedAuditingPolicyId, workspacesKey: string, settingsKey: string)
    requires Plain4(id)
    requires EqualFold(workspacesKey, "workspaces") && EqualFold(settingsKey, "extendedAuditingSettings")
    ensures Spec("/subscriptions/" + id.subscriptionId + "/resourceGroups/" + id.resourceGroup
                 + "/providers/Microsoft.Synapse/" + workspacesKey + "/" + id.workspaceName
                 + "/" + settingsKey + "/" + id.extendedAuditingSettingName) ==
           if workspacesKey != "workspaces" then Err(MissingElement("workspaces"))
           else if settingsKey != "extendedAuditingSettings" then Err(MissingElement("extendedAuditingSettings"))
           else Ok(id)
  {
    GrammarWellFormed();
    ProvidersRun();
    StrictRecasedTwo(IdGrammar, id.ToFields(), workspacesKey, settingsKey, "/providers/Microsoft.Synapse/");
  }

  /** The upper-cased vector, every key and value upper-cased, written as its "/key/value"
      pairs: "SUBSCRIPTIONS" is not the library's key, so the subscription is reported missing. */
  lemma RejectsUpperCased(s: string, r: string, w: string, n: string)
    requires Plain(s) && Plain(r) && Plain(w) && Plain(n)
    ensures Spec(Pairs(["SUBSCRIPTIONS", "RESOURCEGROUPS", "PROVIDERS", "WORKSPACES", "EXTENDEDAUDITINGSETTINGS"],
                       [s, r, "MICROSOFT.SYNAPSE", w, n])) == Err(MissingElement("subscriptions"))
  {
    var keys := ["SUBSCRIPTIONS", "RESOURCEGROUPS", "PROVIDERS", "WORKSPACES", "EXTENDEDAUDITINGSETTINGS"];
    var values := [s, r, "MICROSOFT.SYNAPSE", w, n];
    UpperSubscriptions();
    UpperResourceGroups();
    UpperProviders();
    UpperPieces();
    SubscriptionsKeyExact(IdGrammar, Strict, keys, values, false);
    assert Pairs(keys, values) + (if false then "/" else "") == Pairs(keys, values);
  }

  lemma UpperPieces()
    ensures Plain("WORKSPACES") && "WORKSPACES" != "subscriptions"
    ensures Plain("EXTENDEDAUDITINGSETTINGS") && "EXTENDEDAUDITINGSETTINGS" != "subscriptions"
    ensures Plain("MICROSOFT.SYNAPSE")
  {
    UpperWorkspaces();
    UpperSettings();
    UpperNamespace();
  }

  lemma UpperWorkspaces()
    ensures Plain("WORKSPACES") && "WORKSPACES" != "subscriptions"
  {
  }

  lemma UpperSettings()
    ensures Plain("EXTENDEDAUDITINGSETTINGS") && "EXTENDEDAUDITINGSETTINGS" != "subscriptions"
  {
  }

  lemma UpperNamespace()
    ensures Plain("MICROSOFT.SYNAPSE")
  {
  }
}
