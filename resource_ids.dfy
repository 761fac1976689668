/** The resource-ID library that the generated identifier parsers call
    (`resourceids.ParseAzureResourceID`, `PopSegment`, `ValidateNoEmptySegments`). Its code
    is not part of this model; what it does is stated here from the behaviour the parsers
    rely on: the decoded path splits into key/value pairs, empty keys and values are
    refused, the first "subscriptions" and "providers" values and the "resourceGroups"
    value (or, when there is none, the "resourcegroups" value) are taken out, every other
    pair goes into a map in which a repeated key keeps its last value, PopSegment removes
    one key, and keys left over fail the final check. */
module ResourceIds {
  import opened Wrappers
  import opened Text
  import opened Urls

  /** The errors of the library and of the parsers built on it. */
  datatype ParseError =
    | InvalidUri                  // url.ParseRequestURI refused the input
    | OddSegmentCount             // the path is not a sequence of key/value pairs
    | EmptyKeyOrValue             // a key or a value between two slashes is empty
    | MissingElement(key: string) // a key the parser asks for is absent
    | ExtraSegments               // keys are left over once every key asked for was taken

  /** What ParseAzureResourceID extracts from an identifier. */
  datatype Components = Components(
    subscriptionId: string,
    resourceGroup: string,
    provider: string,
    path: map<string, string>)

  /** Where the library puts one key/value pair: the first "subscriptions" and "providers"
      values are kept apart, every other pair goes into the path map, replacing an earlier
      value under the same key. */
  function Store(acc: Components, key: string, value: string): Components
  {
    if key == "subscriptions" && acc.subscriptionId == "" then acc.(subscriptionId := value)
    else if key == "providers" && acc.provider == "" then acc.(provider := value)
    else acc.(path := acc.path[key := value])
  }

  /** The key/value loop of ParseAzureResourceID over the split path. */
  function Collect(comps: seq<string>, acc: Components): (r: Result<Components, ParseError>)
    requires |comps| % 2 == 0
    decreases |comps|
  {
    if comps == [] then Ok(acc)
    else if comps[0] == "" || comps[1] == "" then Err(EmptyKeyOrValue)
    else Collect(comps[2..], Store(acc, comps[0], comps[1]))
  }

  /** ParseAzureResourceID as a function of its input. */
  function SplitResourceId(input: string): (r: Result<Components, ParseError>)
  {
    match ParseRequestUri(input)
    case None => Err(InvalidUri)
    case Some(url) => FromSegments(Split(TrimSuffix(TrimPrefix(url.path, "/"), "/"), '/'))
  }

  /** The components of an identifier whose path was split into `comps`. */
  function FromSegments(comps: seq<string>): Result<Components, ParseError>
  {
    if |comps| % 2 != 0 then Err(OddSegmentCount)
    else
      match Collect(comps, Components("", "", "", map[]))
      case Err(e) => Err(e)
      case Ok(c) => Ok(TakeResourceGroup(c))
  }

  /** The "resourceGroups" pair leaves the path map and becomes the resource group; when
      there is none, a lower-case "resourcegroups" pair does. */
  function TakeResourceGroup(c: Components): Components
  {
    if "resourceGroups" in c.path then
      c.(resourceGroup := c.path["resourceGroups"], path := c.path - {"resourceGroups"})
    else if "resourcegroups" in c.path then
      c.(resourceGroup := c.path["resourcegroups"], path := c.path - {"resourcegroups"})
    else c
  }

  /** Every value the library keeps is non-empty and free of '/': the decoded path was split
      at every '/'. */
  predicate PlainValues(c: Components)
  {
    && (c.subscriptionId != "" ==> '/' !in c.subscriptionId)
    && (c.resourceGroup != "" ==> '/' !in c.resourceGroup)
    && forall k :: k in c.path ==> c.path[k] != "" && '/' !in c.path[k]
  }

  lemma {:induction false} CollectPlain(comps: seq<string>, acc: Components)
    requires |comps| % 2 == 0 && PlainValues(acc)
    requires forall i :: 0 <= i < |comps| ==> '/' !in comps[i]
    ensures Collect(comps, acc).Ok? ==> PlainValues(Collect(comps, acc).value)
    decreases |comps|
  {
    if comps != [] && comps[0] != "" && comps[1] != "" {
      CollectPlain(comps[2..], Store(acc, comps[0], comps[1]));
    }
  }

  /** A successful ParseAzureResourceID keeps only non-empty values without '/'. */
  lemma SplitResourceIdPlain(input: string)
    ensures SplitResourceId(input).Ok? ==> PlainValues(SplitResourceId(input).value)
  {
    var url := ParseRequestUri(input);
    if url.Some? {
      var comps := Split(TrimSuffix(TrimPrefix(url.value.path, "/"), "/"), '/');
      if |comps| % 2 == 0 {
        CollectPlain(comps, Components("", "", "", map[]));
      }
    }
  }

  /** A path written as "/" followed by its segments joined with "/", with or without one
      trailing '/', splits back into exactly those segments. */
  lemma {:induction false} SplitJoinedPath(segs: seq<string>, trailing: bool)
    requires |segs| >= 1 && segs[|segs| - 1] != ""
    requires forall i :: 0 <= i < |segs| ==> '/' !in segs[i] && Verbatim(segs[i])
    ensures SplitResourceId("/" + Join(segs, "/") + (if trailing then "/" else "")) == FromSegments(segs)
  {
    var joined := Join(segs, "/");
    var input := "/" + joined + (if trailing then "/" else "");
    JoinVerbatim(segs, "/");
    assert Verbatim(input);
    ParseAbsolutePath(input);
    JoinEndsWithLast(segs, "/");
    TrimSlashes(joined, segs[|segs| - 1], trailing);
    SplitJoin(segs, '/');
  }

  /** Trimming the leading and the trailing '/' of "/" + s (+ "/") gives `s` back when `s`
      does not itself end in '/'. */
  lemma TrimSlashes(s: string, last: string, trailing: bool)
    requires last != [] && '/' !in last && HasSuffix(s, last)
    ensures TrimSuffix(TrimPrefix("/" + s + (if trailing then "/" else ""), "/"), "/") == s
  {
    assert s[|s| - 1] == last[|last| - 1];
    assert !HasSuffix(s, "/");
    var t := "/" + s + (if trailing then "/" else "");
    assert TrimPrefix(t, "/") == s + (if trailing then "/" else "");
    if trailing {
      assert HasSuffix(s + "/", "/");
    }
  }

  /** The identifier as the library hands it to a parser: its path map is consumed by
      PopSegment, one key at a time. */
  class ResourceId {
    var subscriptionId: string
    var resourceGroup: string
    var provider: string
    var path: map<string, string>

    constructor (c: Components)
      ensures subscriptionId == c.subscriptionId && resourceGroup == c.resourceGroup
      ensures provider == c.provider && path == c.path
    {
      subscriptionId := c.subscriptionId;
      resourceGroup := c.resourceGroup;
      provider := c.provider;
      path := c.path;
    }

    /** Removes `name` from the path and returns its value; fails, changing nothing, when
        the path has no such key. */
    method PopSegment(name: string) returns (r: Result<string, ParseError>)
      modifies this`path
      ensures name in old(path) ==> r == Ok(old(path)[name]) && path == old(path) - {name}
      ensures name !in old(path) ==> r == Err(MissingElement(name)) && path == old(path)
    {
      if name in path {
        r := Ok(path[name]);
        path := path - {name};
      } else {
        r := Err(MissingElement(name));
      }
    }

    /** Despite its name, the check that no key is left over in the path. */
    function ValidateNoEmptySegments(): (r: Outcome<ParseError>)
      reads this
      ensures r.Pass? <==> path == map[]
      ensures r.Fail? ==> r.error == ExtraSegments
    {
      if path == map[] then Pass else Fail(ExtraSegments)
    }
  }

  /** ParseAzureResourceID: a fresh identifier holding what SplitResourceId extracts. */
  method ParseAzureResourceID(input: string) returns (r: Result<ResourceId, ParseError>)
    ensures SplitResourceId(input).Err? ==> r == Err(SplitResourceId(input).error)
    ensures SplitResourceId(input).Ok? ==> r.Ok? && fresh(r.value)
    ensures r.Ok? ==>
      var c := SplitResourceId(input).value;
      && r.value.subscriptionId == c.subscriptionId && r.value.resourceGroup == c.resourceGroup
      && r.value.provider == c.provider && r.value.path == c.path
  {
    var c := SplitResourceId(input);
    if c.Err? {
      return Err(c.error);
    }
    var id := new ResourceId(c.value);
    return Ok(id);
  }
}
