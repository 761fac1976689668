/** The Key Vault vault identifier, as its generated test file pins it down: the formatter,
    the strict and the insensitive parser on each of its vectors. The vectors' placeholder
    values ("{subscriptionId}", "{vaultName}", ...) are parameters here: any plain segment
    behaves as they do.

    The short lemmas about this kind's literals (its keys, its namespace and their
    upper-cased forms) each state one literal fact, as in the other identifier kinds: one
    lemma over all of them costs the solver far more. */
module KeyVaultVaults {
  import opened Wrappers
  import opened Text
  import opened ResourceIds
  import opened Grammars

  /** "/subscriptions/{sub}/resourceGroups/{rg}/providers/Microsoft.KeyVault/vaults/{name}" */
  const IdGrammar := Grammar("Microsoft.KeyVault", ["vaults"])

  datatype VaultId = VaultId(subscriptionId: string, resourceGroup: string, name: string)
  {
    /** The canonical path of the vault. */
    function ID(): string
    {
      "/subscriptions/" + subscriptionId + "/resourceGroups/" + resourceGroup
        + "/providers/Microsoft.KeyVault/vaults/" + name
    }

    function ToFields(): Fields
    {
      Fields(subscriptionId, resourceGroup, [name])
    }
  }

  /** NewVaultID: the record of its three arguments, unchanged. */
  function NewVaultID(subscriptionId: string, resourceGroup: string, name: string): (id: VaultId)
    ensures id.subscriptionId == subscriptionId && id.resourceGroup == resourceGroup && id.name == name
  {
    VaultId(subscriptionId, resourceGroup, name)
  }

  /** The record a parse of this grammar builds, or its error. */
  function Lift(r: Result<Fields, ParseError>): Result<VaultId, ParseError>
    requires r.Ok? ==> |r.value.names| == 1
  {
    match r
    case Err(e) => Err(e)
    case Ok(f) => Ok(VaultId(f.subscriptionId, f.resourceGroup, f.names[0]))
  }

  /** What the parser in `mode` returns for `input`. */
  ghost function Spec(mode: Mode, input: string): Result<VaultId, ParseError>
  {
    Lift(Parse(IdGrammar, mode, input))
  }

  lemma NamespaceIsPlain()
    ensures Plain("Microsoft.KeyVault")
  {
  }

  lemma FirstKeyIsPlain()
    ensures Plain("vaults")
  {
  }

  lemma GrammarWellFormed()
    ensures WellFormed(IdGrammar)
  {
    NamespaceIsPlain();
    FirstKeyIsPlain();
    WellFormedOne("Microsoft.KeyVault", "vaults");
  }

  // The literal runs of the template against the grammar's pieces, one per lemma: the
  // solver compares long literals cheaply only one at a time.
  lemma ProvidersRun()
    ensures "/providers/Microsoft.KeyVault/" == "/providers/" + IdGrammar.namespace + "/"
  {
    ProvidersHead();
    NamespaceTail();
  }

  lemma ProvidersHead()
    ensures "/providers/Microsoft.KeyVault/" == "/providers/" + "Microsoft.KeyVault/"
  {
  }

  lemma NamespaceTail()
    ensures "Microsoft.KeyVault/" == "Microsoft.KeyVault" + "/"
  {
  }

  lemma FirstKeyRun()
    ensures "/providers/Microsoft.KeyVault/vaults/" == "/providers/" + IdGrammar.namespace + "/" + IdGrammar.keys[0] + "/"
  {
    ProvidersRun();
    FirstKeyText();
  }

  lemma FirstKeyText()
    ensures "/providers/Microsoft.KeyVault/vaults/" == "/providers/Microsoft.KeyVault/" + "vaults" + "/"
  {
  }

  /** ParseVaultID: the strict parser. */
  method ParseVaultID(input: string) returns (r: Result<VaultId, ParseError>)
    ensures r == Spec(Strict, input)
  {
    GrammarWellFormed();
    var fields := ParseResourceId(IdGrammar, Strict, input);
    r := Lift(fields);
  }

  /** ParseVaultIDInsensitively: the parser that accepts the "vaults" key in any casing. */
  method ParseVaultIDInsensitively(input: string) returns (r: Result<VaultId, ParseError>)
    ensures r == Spec(Insensitive, input)
  {
    GrammarWellFormed();
    var fields := ParseResourceId(IdGrammar, Insensitive, input);
    r := Lift(fields);
  }

  /** ID() is the grammar's formatter applied to the identifier's fields. */
  lemma IdIsFormat(id: VaultId)
    ensures id.ID() == Format(IdGrammar, id.ToFields())
  {
    FirstKeyRun();
    FormatOne(IdGrammar.namespace, IdGrammar.keys[0], id.ToFields(), "/providers/Microsoft.KeyVault/vaults/");
    assert Grammar(IdGrammar.namespace, [IdGrammar.keys[0]]) == IdGrammar;
  }

  /** Fields that are single non-empty segments, as every parse returns. */
  predicate Plain3(id: VaultId)
  {
    Plain(id.subscriptionId) && Plain(id.resourceGroup) && Plain(id.name)
  }

  /** The valid vector: both parsers give back the identifier ID() renders. */
  lemma RoundTrip(id: VaultId, mode: Mode)
    requires Plain3(id)
    ensures Spec(mode, id.ID()) == Ok(id)
  {
    IdIsFormat(id);
    GrammarWellFormed();
    Grammars.RoundTrip(IdGrammar, mode, id.ToFields(), IdGrammar.namespace);
    assert Grammar(IdGrammar.namespace, IdGrammar.keys) == IdGrammar;
  }

  /** The vectors "" and "/": refused by both parsers. */
  lemma RejectsEmptyAndRoot(mode: Mode)
    ensures Spec(mode, "") == Err(InvalidUri)
    ensures Spec(mode, "/") == Err(OddSegmentCount)
  {
    EmptyRejected(IdGrammar, mode);
    RootRejected(IdGrammar, mode);
  }

  /** The vector "/subscriptions/": a key without its value. */
  lemma RejectsSubscriptionsWithoutValue(mode: Mode)
    ensures Spec(mode, "/" + "subscriptions" + "/") == Err(OddSegmentCount)
  {
    KeyWithoutValueRejected(IdGrammar, mode, "subscriptions");
  }

  /** The vectors that stop in the resource group. */
  lemma RejectsWithoutResourceGroup(mode: Mode, s: string)
    requires Plain(s)
    ensures Spec(mode, "/subscriptions/" + s + "/") == Err(MissingElement("resourceGroups"))
    ensures Spec(mode, "/subscriptions/" + s + "/resourceGroups/") == Err(OddSegmentCount)
  {
    SubscriptionOnlyRejected(IdGrammar, mode, s);
    ResourceGroupWithoutValueRejected(IdGrammar, mode, s);
  }

  /** The vectors that stop at the vault. */
  lemma RejectsWithoutVault(mode: Mode, s: string, r: string)
    requires Plain(s) && Plain(r)
    ensures Spec(mode, "/subscriptions/" + s + "/resourceGroups/" + r + "/providers/Microsoft.KeyVault/")
         == Err(MissingElement("vaults"))
    ensures Spec(mode, "/subscriptions/" + s + "/resourceGroups/" + r + "/providers/Microsoft.KeyVault/vaults/")
         == Err(OddSegmentCount)
  {
    GrammarWellFormed();
    ProvidersRun();
    FirstKeyRun();
    NamespaceOnlyRejected(IdGrammar, mode, s, r, "/providers/Microsoft.KeyVault/");
    FirstValueMissingRejected(IdGrammar, mode, s, r, "/providers/Microsoft.KeyVault/vaults/");
  }

  /** The "vaults" key spelled `vaultsKey`, equal to it up to case: the insensitive parser
      accepts it; the strict one only the canonical spelling, and otherwise reports the key
      missing. */
  lemma RecasedKey(id: VaultId, vaultsKey: string)
    requires Plain3(id) && EqualFold(vaultsKey, "vaults")
    ensures var input := "/subscriptions/" + id.subscriptionId + "/resourceGroups/" + id.resourceGroup
                         + "/providers/Microsoft.KeyVault/" + vaultsKey + "/" + id.name;
      && Spec(Insensitive, input) == Ok(id)
      && Spec(Strict, input) == if vaultsKey != "vaults" then Err(MissingElement("vaults")) else Ok(id)
  {
    GrammarWellFormed();
    ProvidersRun();
    InsensitiveRecasedOne(IdGrammar, id.ToFields(), vaultsKey, "/providers/Microsoft.KeyVault/");
    StrictRecasedOne(IdGrammar, id.ToFields(), vaultsKey, "/providers/Microsoft.KeyVault/");
  }

  /** The insensitive vectors with lower-, upper- and mixed-cased "vaults": all accepted,
      with the same identifier. */
  lemma InsensitiveVectors(id: VaultId)
    requires Plain3(id)
    ensures Spec(Insensitive, "/subscriptions/" + id.subscriptionId + "/resourceGroups/" + id.resourceGroup
                              + "/providers/Microsoft.KeyVault/" + "vaults" + "/" + id.name) == Ok(id)
    ensures Spec(Insensitive, "/subscriptions/" + id.subscriptionId + "/resourceGroups/" + id.resourceGroup
                              + "/providers/Microsoft.KeyVault/" + "VAULTS" + "/" + id.name) == Ok(id)
    ensures Spec(Insensitive, "/subscriptions/" + id.subscriptionId + "/resourceGroups/" + id.resourceGroup
                              + "/providers/Microsoft.KeyVault/" + "VaUlTs" + "/" + id.name) == Ok(id)
  {
    assert EqualFold("vaults", "vaults") && EqualFold("VAULTS", "vaults") && EqualFold("VaUlTs", "vaults");
    RecasedKey(id, "vaults");
    RecasedKey(id, "VAULTS");
    RecasedKey(id, "VaUlTs");
  }

  /** The strict upper-cased vector, every key and value upper-cased, written as its
      "/key/value" pairs: both parsers report the subscription missing. */
  lemma RejectsUpperCased(mode: Mode, s: string, r: string, n: string)
    requires Plain(s) && Plain(r) && Plain(n)
    ensures Spec(mode, Pairs(["SUBSCRIPTIONS", "RESOURCEGROUPS", "PROVIDERS", "VAULTS"],
                             [s, r, "MICROSOFT.KEYVAULT", n])) == Err(MissingElement("subscriptions"))
  {
    var keys := ["SUBSCRIPTIONS", "RESOURCEGROUPS", "PROVIDERS", "VAULTS"];
    UpperSubscriptions();
    UpperResourceGroups();
    UpperProviders();
    UpperPieces();
    var values := [s, r, "MICROSOFT.KEYVAULT", n];
    SubscriptionsKeyExact(IdGrammar, mode, keys, values, false);
    assert Pairs(keys, values) + (if false then "/" else "") == Pairs(keys, values);
  }

  lemma UpperPieces()
    ensures Plain("VAULTS") && "VAULTS" != "subscriptions"
    ensures Plain("MICROSOFT.KEYVAULT")
  {
    UpperVaults();
    UpperNamespace();
  }

  lemma UpperVaults()
    ensures Plain("VAULTS") && "VAULTS" != "subscriptions"
  {
  }

  lemma UpperNamespace()
    ensures Plain("MICROSOFT.KEYVAULT")
  {
  }
}
