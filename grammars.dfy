/** The template shared by every generated resource-identifier kind: an identifier is
    "/subscriptions/{sub}/resourceGroups/{rg}/providers/{namespace}" followed by one
    "/{key}/{name}" pair per resource-type key of its grammar. The strict parser pops each
    key with its exact spelling; the insensitive parser first looks for a path key that
    matches case-insensitively. Both start from ParseAzureResourceID, insist on a
    subscription and a resource group, and refuse keys left over at the end. */
module Grammars {
  import opened Wrappers
  import opened Text
  import opened Urls
  import opened ResourceIds

  /** One identifier kind: the provider namespace its ID() writes after "providers", and
      its resource-type keys in order. */
  datatype Grammar = Grammar(namespace: string, keys: seq<string>)

  /** The fields of an identifier: subscription, resource group and one name per key. */
  datatype Fields = Fields(subscriptionId: string, resourceGroup: string, names: seq<string>)

  /** The strict parser compares keys exactly; the insensitive one with EqualFold. */
  datatype Mode = Strict | Insensitive

  /** A non-empty text between two slashes of a decoded path: what parsing can give back. */
  predicate Segment(s: string)
  {
    s != "" && '/' !in s
  }

  /** A segment ID() can carry and parsing gives back unchanged: one that the request-URI
      parser keeps verbatim. */
  predicate Plain(s: string)
  {
    s != "" && forall c :: c in s ==> c != '/' && VerbatimChar(c)
  }

  /** The keys the library itself interprets, in any casing. */
  predicate Reserved(k: string)
  {
    EqualFold(k, "subscriptions") || EqualFold(k, "resourceGroups") || EqualFold(k, "providers")
  }

  /** No two keys of a grammar are equal up to case. */
  predicate FoldDistinct(keys: seq<string>)
  {
    forall i, j :: 0 <= i < |keys| && 0 <= j < |keys| && i != j ==> !EqualFold(keys[i], keys[j])
  }

  /** The grammars the generator emits: a namespace, at least one resource-type key, and
      keys that are plain, not reserved and pairwise different up to case. */
  predicate WellFormed(g: Grammar)
  {
    && Plain(g.namespace)
    && |g.keys| >= 1
    && (forall i :: 0 <= i < |g.keys| ==> Plain(g.keys[i]) && !Reserved(g.keys[i]))
    && FoldDistinct(g.keys)
  }

  /** Fields that fit grammar `g`, each a plain segment. */
  predicate ValidFields(g: Grammar, f: Fields)
  {
    && Plain(f.subscriptionId)
    && Plain(f.resourceGroup)
    && |f.names| == |g.keys|
    && forall i :: 0 <= i < |f.names| ==> Plain(f.names[i])
  }

  /** Fields that fit grammar `g`, each a segment of a decoded path. */
  predicate SegmentFields(g: Grammar, f: Fields)
  {
    && Segment(f.subscriptionId)
    && Segment(f.resourceGroup)
    && |f.names| == |g.keys|
    && forall i :: 0 <= i < |f.names| ==> Segment(f.names[i])
  }

  /** Whether path key `k` is taken for grammar key `c`. */
  predicate KeyMatches(mode: Mode, k: string, c: string)
  {
    if mode == Strict then k == c else EqualFold(k, c)
  }

  /** The path keys that grammar key `c` could take. */
  function Matching(path: map<string, string>, c: string, mode: Mode): set<string>
  {
    set k | k in path.Keys && KeyMatches(mode, k, c)
  }

  function Prefixed(v: string, r: Result<seq<string>, ParseError>): Result<seq<string>, ParseError>
  {
    match r
    case Ok(vs) => Ok([v] + vs)
    case Err(e) => Err(e)
  }

  function PrefixAll(vs: seq<string>, r: Result<seq<string>, ParseError>): Result<seq<string>, ParseError>
  {
    match r
    case Ok(ws) => Ok(vs + ws)
    case Err(e) => Err(e)
  }

  /** The names the pops of `keys` take from `path`, in order. A key no path key matches
      fails with MissingElement; a key that several path keys match takes one of them and
      leaves the others behind, so the pops end with ExtraSegments (`ambiguous`) unless a
      later key is missing first; keys left at the end fail with ExtraSegments. */
  ghost function PopAll(path: map<string, string>, keys: seq<string>, mode: Mode, ambiguous: bool)
    : (r: Result<seq<string>, ParseError>)
    ensures r.Ok? ==> !ambiguous && |r.value| == |keys|
    ensures r.Ok? ==> forall i :: 0 <= i < |r.value| ==> r.value[i] in path.Values
    decreases |keys|
  {
    if keys == [] then
      if ambiguous || path != map[] then Err(ExtraSegments) else Ok([])
    else
      var m := Matching(path, keys[0], mode);
      if m == {} then Err(MissingElement(keys[0]))
      else
        var k :| k in m;
        if m == {k} then
          var rest := PopAll(path - {k}, keys[1..], mode, ambiguous);
          assert rest.Ok? ==> forall i :: 0 <= i < |rest.value| ==> rest.value[i] in path.Values by {
            if rest.Ok? {
              forall i | 0 <= i < |rest.value| ensures rest.value[i] in path.Values {
                var v := rest.value[i];
                var k' :| k' in path - {k} && (path - {k})[k'] == v;
                assert path[k'] == v;
              }
            }
          }
          Prefixed(path[k], rest)
        else
          PopAll(path - m, keys[1..], mode, true)
  }

  /** What a parser of grammar `g` returns for `input`. */
  ghost function Parse(g: Grammar, mode: Mode, input: string): (r: Result<Fields, ParseError>)
    ensures r.Ok? ==> SegmentFields(g, r.value)
  {
    SplitResourceIdPlain(input);
    match SplitResourceId(input)
    case Err(e) => Err(e)
    case Ok(c) => Check(g, mode, c)
  }

  /** The checks of a generated parser once the library has split the identifier: a
      subscription, a resource group, then the pops of the grammar's keys. */
  ghost function Check(g: Grammar, mode: Mode, c: Components): (r: Result<Fields, ParseError>)
    ensures PlainValues(c) && r.Ok? ==> SegmentFields(g, r.value)
  {
    if c.subscriptionId == "" then Err(MissingElement("subscriptions"))
    else if c.resourceGroup == "" then Err(MissingElement("resourceGroups"))
    else
      match PopAll(c.path, g.keys, mode, false)
      case Err(e) => Err(e)
      case Ok(names) => Ok(Fields(c.subscriptionId, c.resourceGroup, names))
  }

  /** Parse once the library's components are known. */
  lemma ParseOf(g: Grammar, mode: Mode, input: string, c: Components)
    requires SplitResourceId(input) == Ok(c)
    ensures Parse(g, mode, input) == Check(g, mode, c)
  {
  }

  /** Keys matched in `mode` to two grammar keys make those grammar keys equal up to case. */
  lemma MatchesBoth(mode: Mode, k: string, a: string, b: string)
    requires KeyMatches(mode, k, a) && KeyMatches(mode, k, b)
    ensures EqualFold(a, b)
  {
  }

  /** One round of PopAll, unfolded: the three outcomes of looking up the first key. */
  lemma PopStep(path: map<string, string>, keys: seq<string>, mode: Mode, ambiguous: bool)
    requires keys != []
    ensures var m := Matching(path, keys[0], mode);
      && (m == {} ==> PopAll(path, keys, mode, ambiguous) == Err(MissingElement(keys[0])))
      && (forall k :: m == {k} ==>
            PopAll(path, keys, mode, ambiguous) ==
            Prefixed(path[k], PopAll(path - {k}, keys[1..], mode, ambiguous)))
      && (m != {} && (forall k :: m != {k}) ==>
            PopAll(path, keys, mode, ambiguous) == PopAll(path - m, keys[1..], mode, true))
  {
  }

  /** Where a parser stands after popping `names` for the first `i` keys of `keys`, when it
      started from the path map `start`: `path` is what is left in the identifier and
      `leftover` the keys that lost an ambiguous match. Those never match a later key, and
      the rest of the pops on `path - leftover` finishes the pops on `start`. */
  ghost predicate Tracks(start: map<string, string>, keys: seq<string>, mode: Mode,
                         names: seq<string>, path: map<string, string>, leftover: set<string>, i: nat)
  {
    && i <= |keys|
    && leftover <= path.Keys
    && (forall k, l :: k in leftover && i <= l < |keys| ==> !KeyMatches(mode, k, keys[l]))
    && PopAll(start, keys, mode, false) ==
       PrefixAll(names, PopAll(path - leftover, keys[i..], mode, leftover != {}))
  }

  /** Nothing popped yet. */
  lemma TrackStart(start: map<string, string>, keys: seq<string>, mode: Mode)
    ensures Tracks(start, keys, mode, [], start, {}, 0)
  {
    assert start - {} == start;
    assert keys[0..] == keys;
    var r := PopAll(start, keys, mode, false);
    assert PrefixAll([], r) == r by {
      if r.Ok? {
        assert [] + r.value == r.value;
      }
    }
  }

  /** The key the source pops for grammar key `c` in `mode`: the exact key when strict;
      when insensitive, a path key equal to `c` up to case, or `c` itself when none is. */
  ghost predicate Chosen(mode: Mode, path: map<string, string>, c: string, key: string)
  {
    if mode == Strict then key == c
    else (key in path && EqualFold(key, c)) || (key == c && forall k :: k in path ==> !EqualFold(k, c))
  }

  /** Popping the chosen key for the next grammar key keeps the tracking, or fails exactly
      when the specification does. Returns the new set of leftover keys. */
  lemma TrackPop(start: map<string, string>, keys: seq<string>, mode: Mode,
                 names: seq<string>, path: map<string, string>,
                 leftover: set<string>, i: nat, key: string)
    returns (leftover': set<string>)
    requires FoldDistinct(keys) && i < |keys|
    requires Tracks(start, keys, mode, names, path, leftover, i)
    requires Chosen(mode, path, keys[i], key)
    ensures key !in path ==> PopAll(start, keys, mode, false) == Err(MissingElement(key))
    ensures key in path ==> Tracks(start, keys, mode, names + [path[key]], path - {key}, leftover', i + 1)
  {
    var m := Matching(path - leftover, keys[i], mode);
    assert keys[i..][0] == keys[i] && keys[i..][1..] == keys[i + 1..];
    PopStep(path - leftover, keys[i..], mode, leftover != {});
    if key !in path {
      TrackMissing(keys, mode, path, leftover, i, key);
      leftover' := leftover;
    } else if m == {key} {
      TrackSingle(start, keys, mode, names, path, leftover, i, key);
      leftover' := leftover;
    } else {
      leftover' := TrackAmbiguous(start, keys, mode, names, path, leftover, i, key);
    }
  }

  lemma TrackMissing(keys: seq<string>, mode: Mode, path: map<string, string>,
                     leftover: set<string>, i: nat, key: string)
    requires i < |keys| && leftover <= path.Keys
    requires forall k, l :: k in leftover && i <= l < |keys| ==> !KeyMatches(mode, k, keys[l])
    requires Chosen(mode, path, keys[i], key) && key !in path
    ensures key == keys[i] && Matching(path - leftover, keys[i], mode) == {}
  {
    var c := keys[i];
    assert forall k :: k in path - leftover && KeyMatches(mode, k, c) ==> EqualFold(k, c);
  }

  lemma TrackSingle(start: map<string, string>, keys: seq<string>, mode: Mode,
                    names: seq<string>, path: map<string, string>,
                    leftover: set<string>, i: nat, key: string)
    requires i < |keys| && key in path
    requires Tracks(start, keys, mode, names, path, leftover, i)
    requires Matching(path - leftover, keys[i], mode) == {key}
    requires PopAll(path - leftover, keys[i..], mode, leftover != {}) ==
             Prefixed((path - leftover)[key], PopAll((path - leftover) - {key}, keys[i + 1..], mode, leftover != {}))
    ensures Tracks(start, keys, mode, names + [path[key]], path - {key}, leftover, i + 1)
  {
    assert key !in leftover;
    assert (path - {key}) - leftover == (path - leftover) - {key};
    var v := path[key];
    var r := PopAll((path - leftover) - {key}, keys[i + 1..], mode, leftover != {});
    assert PrefixAll(names, Prefixed(v, r)) == PrefixAll(names + [v], r) by {
      if r.Ok? {
        assert names + ([v] + r.value) == (names + [v]) + r.value;
      }
    }
  }

  lemma TrackAmbiguous(start: map<string, string>, keys: seq<string>, mode: Mode,
                       names: seq<string>, path: map<string, string>,
                       leftover: set<string>, i: nat, key: string)
    returns (leftover': set<string>)
    requires FoldDistinct(keys) && i < |keys| && key in path
    requires Tracks(start, keys, mode, names, path, leftover, i)
    requires Chosen(mode, path, keys[i], key)
    requires Matching(path - leftover, keys[i], mode) != {key}
    requires var m := Matching(path - leftover, keys[i], mode);
      m != {} && (forall k :: m != {k}) ==>
      PopAll(path - leftover, keys[i..], mode, leftover != {}) ==
      PopAll((path - leftover) - m, keys[i + 1..], mode, true)
    ensures Tracks(start, keys, mode, names + [path[key]], path - {key}, leftover', i + 1)
  {
    var c := keys[i];
    var m := Matching(path - leftover, c, mode);
    assert key !in leftover;
    assert key in m;
    assert forall k :: m != {k} by {
      forall k ensures m != {k} {
        assert key in m && m != {key};
      }
    }
    leftover' := leftover + (m - {key});
    assert (path - {key}) - leftover' == (path - leftover) - m;
    var rest := PopAll((path - leftover) - m, keys[i + 1..], mode, true);
    assert rest.Err?;
    forall k, l | k in leftover' && i + 1 <= l < |keys|
      ensures !KeyMatches(mode, k, keys[l])
    {
      if k in m && KeyMatches(mode, k, keys[l]) {
        MatchesBoth(mode, k, c, keys[l]);
      }
    }
  }

  /** All keys popped: the final leftover check decides. */
  lemma TrackDone(start: map<string, string>, keys: seq<string>, mode: Mode,
                  names: seq<string>, path: map<string, string>, leftover: set<string>)
    requires Tracks(start, keys, mode, names, path, leftover, |keys|)
    ensures path == map[] ==> PopAll(start, keys, mode, false) == Ok(names)
    ensures path != map[] ==> PopAll(start, keys, mode, false) == Err(ExtraSegments)
  {
    assert keys[|keys|..] == [];
    if path == map[] {
      assert leftover == {};
      assert path - leftover == map[];
      assert names + [] == names;
    } else if leftover == {} {
      assert path - leftover == path;
    }
  }

  /** The insensitive parsers' search for the spelling of resource-type key `canonical`:
      some path key equal to it up to case, taken in map order, or `canonical` itself when
      there is none. */
  method FindKey(path: map<string, string>, canonical: string) returns (key: string)
    ensures Chosen(Insensitive, path, canonical, key)
  {
    key := canonical;
    var remaining := path.Keys;
    while remaining != {}
      invariant remaining <= path.Keys
      invariant forall k :: k in path && k !in remaining ==> !EqualFold(k, canonical)
      decreases |remaining|
    {
      var k :| k in remaining;
      if EqualFold(k, canonical) {
        key := k;
        return;
      }
      remaining := remaining - {k};
    }
  }

  /** The generated parser of grammar `g`: ParseAzureResourceID, the subscription and
      resource-group checks, then the pops of the keys. Whatever key the insensitive search
      picks, the result is the one Parse specifies. */
  method ParseResourceId(g: Grammar, mode: Mode, input: string) returns (r: Result<Fields, ParseError>)
    requires FoldDistinct(g.keys)
    ensures r == Parse(g, mode, input)
  {
    var parsed := ParseAzureResourceID(input);
    if parsed.Err? {
      return Err(parsed.error);
    }
    var id := parsed.value;
    var subscriptionId, resourceGroup := id.subscriptionId, id.resourceGroup;
    if subscriptionId == "" {
      return Err(MissingElement("subscriptions"));
    }
    if resourceGroup == "" {
      return Err(MissingElement("resourceGroups"));
    }
    var names := PopKeys(id, g.keys, mode);
    if names.Err? {
      return Err(names.error);
    }
    return Ok(Fields(subscriptionId, resourceGroup, names.value));
  }

  /** One PopSegment per key, in order (after the key search when insensitive), then the
      leftover check. */
  method PopKeys(id: ResourceId, keys: seq<string>, mode: Mode) returns (r: Result<seq<string>, ParseError>)
    requires FoldDistinct(keys)
    modifies id`path
    ensures r == PopAll(old(id.path), keys, mode, false)
  {
    ghost var start := id.path;
    ghost var leftover: set<string> := {};
    TrackStart(start, keys, mode);
    var names: seq<string> := [];
    var i := 0;
    while i < |keys|
      invariant i <= |keys|
      invariant Tracks(start, keys, mode, names, id.path, leftover, i)
    {
      var value;
      value, leftover := PopNext(id, keys[i], mode, start, keys, names, leftover, i);
      if value.Err? {
        return Err(value.error);
      }
      names := names + [value.value];
      i := i + 1;
    }
    TrackDone(start, keys, mode, names, id.path, leftover);
    var check := id.ValidateNoEmptySegments();
    if check.Fail? {
      return Err(check.error);
    }
    return Ok(names);
  }

  /** The pop of the generated parsers' next resource-type key `canonical`: with its exact
      spelling when strict; when insensitive, with the spelling the key search finds. It
      fails exactly when the specification does, and otherwise keeps the tracking. */
  method PopNext(id: ResourceId, canonical: string, mode: Mode, ghost start: map<string, string>,
                 ghost keys: seq<string>, ghost names: seq<string>, ghost leftover: set<string>, ghost i: nat)
    returns (value: Result<string, ParseError>, ghost leftover': set<string>)
    requires FoldDistinct(keys) && i < |keys| && keys[i] == canonical
    requires Tracks(start, keys, mode, names, id.path, leftover, i)
    modifies id`path
    ensures value.Err? ==> PopAll(start, keys, mode, false) == Err(value.error)
    ensures value.Ok? ==> Tracks(start, keys, mode, names + [value.value], id.path, leftover', i + 1)
  {
    var key := canonical;
    if mode == Insensitive {
      key := FindKey(id.path, canonical);
    }
    leftover' := TrackPop(start, keys, mode, names, id.path, leftover, i, key);
    value := id.PopSegment(key);
  }

  /** The "/key/value" pairs of an identifier path, in order. */
  function Pairs(keys: seq<string>, values: seq<string>): string
    requires |keys| == |values|
  {
    if keys == [] then "" else "/" + keys[0] + "/" + values[0] + Pairs(keys[1..], values[1..])
  }

  /** The keys every generated identifier starts with. */
  const Scaffold: seq<string> := ["subscriptions", "resourceGroups", "providers"]

  /** ID() of a generated kind: the subscription, resource group and provider namespace,
      then one "/key/name" pair per resource-type key. */
  function Format(g: Grammar, f: Fields): string
    requires |f.names| == |g.keys|
  {
    "/subscriptions/" + f.subscriptionId + "/resourceGroups/" + f.resourceGroup
      + "/providers/" + g.namespace + Pairs(g.keys, f.names)
  }

  /** The path segments of a list of pairs: key, value, key, value, ... */
  function Interleave(keys: seq<string>, values: seq<string>): (r: seq<string>)
    requires |keys| == |values|
    ensures |r| == 2 * |keys|
  {
    if keys == [] then [] else [keys[0], values[0]] + Interleave(keys[1..], values[1..])
  }

  /** The path map after the library stored `keys` with `values` one by one into `m`. */
  function Assign(m: map<string, string>, keys: seq<string>, values: seq<string>): map<string, string>
    requires |keys| == |values|
    decreases |keys|
  {
    if keys == [] then m else Assign(m[keys[0] := values[0]], keys[1..], values[1..])
  }

  /** Pairs written out is "/" followed by the joined segments. */
  lemma {:induction false} PairsIsJoin(keys: seq<string>, values: seq<string>)
    requires |keys| == |values| >= 1
    ensures Pairs(keys, values) == "/" + Join(Interleave(keys, values), "/")
  {
    var k, v := keys[0], values[0];
    var rest := Interleave(keys[1..], values[1..]);
    InterleaveCons(keys, values);
    JoinPrepend(k, [v] + rest, "/");
    if |keys| == 1 {
      assert [v] + rest == [v];
    } else {
      PairsIsJoin(keys[1..], values[1..]);
      JoinPrepend(v, rest, "/");
    }
  }

  /** The first key and value, then the interleaving of the rest. */
  lemma InterleaveCons(keys: seq<string>, values: seq<string>)
    requires |keys| == |values| >= 1
    ensures Interleave(keys, values) == [keys[0]] + ([values[0]] + Interleave(keys[1..], values[1..]))
  {
  }

  /** One "/key/value" pair in front of a list of pairs; `lit` is "/key/". */
  lemma PairsCons(k: string, v: string, ks: seq<string>, vs: seq<string>, lit: string)
    requires |ks| == |vs| && lit == "/" + k + "/"
    ensures Pairs([k] + ks, [v] + vs) == lit + v + Pairs(ks, vs)
  {
    assert ([k] + ks)[1..] == ks && ([v] + vs)[1..] == vs;
  }

  // The scaffold keys as "/key/" runs, one literal per lemma.
  lemma SubscriptionsRun()
    ensures "/subscriptions/" == "/" + "subscriptions" + "/"
  {
  }

  lemma ResourceGroupsRun()
    ensures "/resourceGroups/" == "/" + "resourceGroups" + "/"
  {
  }

  lemma ProvidersKeyRun()
    ensures "/providers/" == "/" + "providers" + "/"
  {
  }

  /** Format is the pairs of the scaffold keys followed by the grammar's pairs. */
  lemma FormatIsPairs(g: Grammar, f: Fields)
    requires |f.names| == |g.keys|
    ensures Format(g, f) ==
      Pairs(Scaffold + g.keys, [f.subscriptionId, f.resourceGroup, g.namespace] + f.names)
  {
    var p := Pairs(g.keys, f.names);
    var ks2, vs2 := ["providers"] + g.keys, [g.namespace] + f.names;
    var ks1, vs1 := ["resourceGroups"] + ks2, [f.resourceGroup] + vs2;
    SubscriptionsRun();
    ResourceGroupsRun();
    ProvidersKeyRun();
    PairsCons("providers", g.namespace, g.keys, f.names, "/providers/");
    PairsCons("resourceGroups", f.resourceGroup, ks2, vs2, "/resourceGroups/");
    PairsCons("subscriptions", f.subscriptionId, ks1, vs1, "/subscriptions/");
    assert Scaffold + g.keys == ["subscriptions"] + ks1;
    assert [f.subscriptionId, f.resourceGroup, g.namespace] + f.names == [f.subscriptionId] + vs1;
    Regroup("/subscriptions/", f.subscriptionId, "/resourceGroups/", f.resourceGroup, "/providers/", g.namespace, p);
  }

  /** Seven strings concatenated, grouped from the right or from the left. */
  lemma Regroup(a: string, b: string, c: string, d: string, e: string, h: string, p: string)
    ensures a + b + (c + d + (e + h + p)) == a + b + c + d + e + h + p
  {
  }

  /** The segments of plain pairs are plain. */
  lemma {:induction false} InterleavePlain(keys: seq<string>, values: seq<string>)
    requires |keys| == |values|
    requires forall i :: 0 <= i < |keys| ==> Plain(keys[i]) && Plain(values[i])
    ensures forall i :: 0 <= i < |Interleave(keys, values)| ==> Plain(Interleave(keys, values)[i])
  {
    if keys != [] {
      InterleavePlain(keys[1..], values[1..]);
      var rest := Interleave(keys[1..], values[1..]);
      assert forall i :: 2 <= i < 2 * |keys| ==> Interleave(keys, values)[i] == rest[i - 2];
    }
  }

  /** Plain pairs, with or without one trailing '/', split into their segments. */
  lemma SplitPairs(keys: seq<string>, values: seq<string>, trailing: bool)
    requires |keys| == |values| >= 1
    requires forall i :: 0 <= i < |keys| ==> Plain(keys[i]) && Plain(values[i])
    ensures SplitResourceId(Pairs(keys, values) + (if trailing then "/" else "")) ==
            FromSegments(Interleave(keys, values))
  {
    PairsIsJoin(keys, values);
    InterleavePlain(keys, values);
    SplitJoinedPath(Interleave(keys, values), trailing);
  }

  /** Plain pairs followed by a key with an empty value split into an odd number of
      segments. */
  lemma SplitPairsThenKey(keys: seq<string>, values: seq<string>, key: string)
    requires |keys| == |values| && Plain(key)
    requires forall i :: 0 <= i < |keys| ==> Plain(keys[i]) && Plain(values[i])
    ensures SplitResourceId(Pairs(keys, values) + "/" + key + "/") == Err(OddSegmentCount)
  {
    var segs := Interleave(keys, values) + [key];
    PairsThenKeyIsJoin(keys, values, key);
    PairsThenKeyPlain(keys, values, key);
    assert segs[|segs| - 1] == key;
    SplitJoinedPath(segs, true);
    var n := |keys|;
    assert |segs| == 2 * n + 1;
    Parity(n);
  }

  /** The segments of plain pairs followed by a plain key are plain. */
  lemma PairsThenKeyPlain(keys: seq<string>, values: seq<string>, key: string)
    requires |keys| == |values| && Plain(key)
    requires forall i :: 0 <= i < |keys| ==> Plain(keys[i]) && Plain(values[i])
    ensures var segs := Interleave(keys, values) + [key];
      forall i :: 0 <= i < |segs| ==> '/' !in segs[i] && Verbatim(segs[i])
  {
    var segs := Interleave(keys, values) + [key];
    InterleavePlain(keys, values);
    forall i | 0 <= i < |segs| ensures '/' !in segs[i] && Verbatim(segs[i]) {
      if i < |segs| - 1 {
        assert segs[i] == Interleave(keys, values)[i];
      }
    }
  }

  lemma PairsThenKeyIsJoin(keys: seq<string>, values: seq<string>, key: string)
    requires |keys| == |values|
    ensures Pairs(keys, values) + "/" + key + "/" == "/" + Join(Interleave(keys, values) + [key], "/") + "/"
  {
    var segs := Interleave(keys, values);
    if keys == [] {
      assert segs + [key] == [key];
    } else {
      PairsIsJoin(keys, values);
      JoinAppend(segs, [key], "/");
      assert Join(segs + [key], "/") == Join(segs, "/") + "/" + key;
    }
  }

  /** Once the subscription and the provider are known, the library stores every further
      pair in the path map, a repeated key keeping its last value. */
  lemma {:induction false} CollectAssign(keys: seq<string>, values: seq<string>, acc: Components)
    requires |keys| == |values|
    requires forall i :: 0 <= i < |keys| ==> keys[i] != "" && values[i] != ""
    requires acc.subscriptionId != "" && acc.provider != ""
    ensures Collect(Interleave(keys, values), acc) == Ok(acc.(path := Assign(acc.path, keys, values)))
  {
    if keys != [] {
      CollectStep(keys, values, acc);
      CollectAssign(keys[1..], values[1..], acc.(path := acc.path[keys[0] := values[0]]));
    }
  }

  lemma Parity(n: nat)
    ensures (2 * n) % 2 == 0 && (2 * n + 1) % 2 == 1
  {
  }

  /** The map Assign builds from distinct keys: every key once, with its own value. */
  lemma {:induction false} AssignFacts(m: map<string, string>, keys: seq<string>, values: seq<string>)
    requires |keys| == |values|
    requires forall i, j :: 0 <= i < j < |keys| ==> keys[i] != keys[j]
    ensures forall k :: k in Assign(m, keys, values) <==> k in m || k in keys
    ensures forall i :: 0 <= i < |keys| ==> Assign(m, keys, values)[keys[i]] == values[i]
    ensures forall k :: k in m && k !in keys ==> Assign(m, keys, values)[k] == m[k]
    decreases |keys|
  {
    if keys != [] {
      var m' := m[keys[0] := values[0]];
      AssignFacts(m', keys[1..], values[1..]);
      assert keys[0] !in keys[1..];
      assert forall k :: k in keys <==> k == keys[0] || k in keys[1..];
      assert forall i :: 1 <= i < |keys| ==> keys[i] == keys[1..][i - 1] && values[i] == values[1..][i - 1];
    }
  }

  /** A scaffolded path parses into its subscription, resource group, provider and the map
      of its remaining pairs, whichever of the two resource-group keys it spells. */
  lemma ScaffoldComponents(rg: string, s: string, r: string, ns: string, keys: seq<string>, values: seq<string>)
    requires rg == "resourceGroups" || rg == "resourcegroups"
    requires Plain(s) && Plain(r) && Plain(ns) && |keys| == |values|
    requires forall i :: 0 <= i < |keys| ==> Plain(keys[i]) && Plain(values[i])
    requires forall i, j :: 0 <= i < j < |keys| ==> keys[i] != keys[j]
    requires "resourceGroups" !in keys && rg !in keys
    ensures FromSegments(Interleave(["subscriptions", rg, "providers"] + keys, [s, r, ns] + values)) ==
            Ok(Components(s, r, ns, Assign(map[], keys, values)))
  {
    var segs := Interleave(["subscriptions", rg, "providers"] + keys, [s, r, ns] + values);
    var acc := Components(s, "", ns, map[rg := r]);
    var full := Assign(acc.path, keys, values);
    CollectScaffold(rg, s, r, ns, keys, values);
    CollectAssign(keys, values, acc);
    AssignWithout(rg, r, keys, values);
    Parity(3 + |keys|);
    assert Collect(segs, Components("", "", "", map[])) == Ok(Components(s, "", ns, full));
  }

  lemma CollectScaffold(rg: string, s: string, r: string, ns: string, keys: seq<string>, values: seq<string>)
    requires rg == "resourceGroups" || rg == "resourcegroups"
    requires Plain(s) && Plain(r) && Plain(ns) && |keys| == |values|
    ensures Collect(Interleave(["subscriptions", rg, "providers"] + keys, [s, r, ns] + values),
                    Components("", "", "", map[])) ==
            Collect(Interleave(keys, values), Components(s, "", ns, map[rg := r]))
  {
    var ks, vs := ["subscriptions", rg, "providers"] + keys, [s, r, ns] + values;
    assert ks[1..][1..][1..] == keys && vs[1..][1..][1..] == values;
    var acc1 := Components(s, "", "", map[]);
    var acc2 := Components(s, "", "", map[rg := r]);
    CollectStep(ks, vs, Components("", "", "", map[]));
    CollectStep(ks[1..], vs[1..], acc1);
    CollectStep(ks[1..][1..], vs[1..][1..], acc2);
  }

  /** Collect takes the first pair of a pair list and goes on with the rest. */
  lemma CollectStep(keys: seq<string>, values: seq<string>, acc: Components)
    requires |keys| == |values| >= 1 && keys[0] != "" && values[0] != ""
    ensures Collect(Interleave(keys, values), acc) ==
            Collect(Interleave(keys[1..], values[1..]), Store(acc, keys[0], values[0]))
  {
    var segs := Interleave(keys, values);
    assert segs[2..] == Interleave(keys[1..], values[1..]);
  }

  lemma AssignWithout(rg: string, r: string, keys: seq<string>, values: seq<string>)
    requires |keys| == |values|
    requires forall i, j :: 0 <= i < j < |keys| ==> keys[i] != keys[j]
    requires rg !in keys
    ensures var full := Assign(map[rg := r], keys, values);
      && rg in full && full[rg] == r
      && (forall k :: k in full <==> k == rg || k in keys)
      && full - {rg} == Assign(map[], keys, values)
  {
    var full := Assign(map[rg := r], keys, values);
    var plain := Assign(map[], keys, values);
    AssignFacts(map[rg := r], keys, values);
    AssignFacts(map[], keys, values);
    assert full - {rg} == plain;
  }

  /** `path` holds exactly the pairs keys[i] to values[i] for j <= i. */
  ghost predicate Holds(path: map<string, string>, keys: seq<string>, values: seq<string>, j: nat)
  {
    && j <= |keys| == |values|
    && (forall k :: k in path ==> exists i :: j <= i < |keys| && keys[i] == k)
    && (forall i :: j <= i < |keys| ==> keys[i] in path && path[keys[i]] == values[i])
  }

  /** Distinct keys assigned into an empty map hold exactly their pairs. */
  lemma AssignHolds(keys: seq<string>, values: seq<string>)
    requires |keys| == |values|
    requires forall i, j :: 0 <= i < j < |keys| ==> keys[i] != keys[j]
    ensures Holds(Assign(map[], keys, values), keys, values, 0)
  {
    AssignFacts(map[], keys, values);
    forall k | k in Assign(map[], keys, values)
      ensures exists i :: 0 <= i < |keys| && keys[i] == k
    {
      var i :| 0 <= i < |keys| && keys[i] == k;
    }
  }

  /** The first index from `j` on whose spelled key `mode` does not accept for its grammar
      key, or |spelled| when there is none. */
  function FirstMismatch(mode: Mode, spelled: seq<string>, keys: seq<string>, j: nat): (m: nat)
    requires |spelled| <= |keys| && j <= |spelled|
    ensures j <= m <= |spelled|
    ensures forall l :: j <= l < m ==> KeyMatches(mode, spelled[l], keys[l])
    ensures m < |spelled| ==> !KeyMatches(mode, spelled[m], keys[m])
    decreases |spelled| - j
  {
    if j == |spelled| || !KeyMatches(mode, spelled[j], keys[j]) then j
    else FirstMismatch(mode, spelled, keys, j + 1)
  }

  /** The pops of grammar `keys` on a path holding `spelled` keys, each equal to its grammar
      key up to case, with their `names`: all names when every key is spelled as `mode`
      accepts and none is missing; else MissingElement for the first key that is either
      spelled otherwise or absent. */
  lemma {:induction false} PopPairs(path: map<string, string>, keys: seq<string>,
                                    spelled: seq<string>, names: seq<string>, mode: Mode, j: nat)
    requires FoldDistinct(keys) && |spelled| <= |keys|
    requires forall i :: 0 <= i < |spelled| ==> EqualFold(spelled[i], keys[i])
    requires Holds(path, spelled, names, j)
    ensures var m := FirstMismatch(mode, spelled, keys, j);
      PopAll(path, keys[j..], mode, false) ==
        if m == |keys| then Ok(names[j..]) else Err(MissingElement(keys[m]))
    decreases |spelled| - j
  {
    if j == |spelled| {
      PopPairsEnd(path, keys, spelled, names, mode);
    } else if KeyMatches(mode, spelled[j], keys[j]) {
      HoldsStep(path, keys, spelled, names, mode, j);
      PopPairs(path - {spelled[j]}, keys, spelled, names, mode, j + 1);
      PopPairsTake(path, keys, spelled, names, mode, j);
    } else {
      HoldsStep(path, keys, spelled, names, mode, j);
      PopStep(path, keys[j..], mode, false);
      assert keys[j..][0] == keys[j];
    }
  }

  /** The step of PopPairs where grammar key j takes its spelled key. */
  lemma PopPairsTake(path: map<string, string>, keys: seq<string>,
                     spelled: seq<string>, names: seq<string>, mode: Mode, j: nat)
    requires FoldDistinct(keys) && j < |spelled| <= |keys|
    requires forall i :: 0 <= i < |spelled| ==> EqualFold(spelled[i], keys[i])
    requires Holds(path, spelled, names, j) && KeyMatches(mode, spelled[j], keys[j])
    requires var m := FirstMismatch(mode, spelled, keys, j + 1);
      PopAll(path - {spelled[j]}, keys[j + 1..], mode, false) ==
        if m == |keys| then Ok(names[j + 1..]) else Err(MissingElement(keys[m]))
    ensures var m := FirstMismatch(mode, spelled, keys, j);
      PopAll(path, keys[j..], mode, false) ==
        if m == |keys| then Ok(names[j..]) else Err(MissingElement(keys[m]))
  {
    var c, k := keys[j], spelled[j];
    PopStep(path, keys[j..], mode, false);
    assert keys[j..][0] == c && keys[j..][1..] == keys[j + 1..];
    HoldsStep(path, keys, spelled, names, mode, j);
    assert FirstMismatch(mode, spelled, keys, j) == FirstMismatch(mode, spelled, keys, j + 1);
    SliceCons(names, j);
  }

  lemma SliceCons(s: seq<string>, j: nat)
    requires j < |s|
    ensures s[j..] == [s[j]] + s[j + 1..]
  {
  }

  lemma PopPairsEnd(path: map<string, string>, keys: seq<string>,
                    spelled: seq<string>, names: seq<string>, mode: Mode)
    requires FoldDistinct(keys) && |spelled| <= |keys|
    requires forall i :: 0 <= i < |spelled| ==> EqualFold(spelled[i], keys[i])
    requires Holds(path, spelled, names, |spelled|)
    ensures PopAll(path, keys[|spelled|..], mode, false) ==
      if |spelled| == |keys| then Ok(names[|spelled|..]) else Err(MissingElement(keys[|spelled|]))
  {
    var n := |spelled|;
    assert path == map[] by {
      assert forall k :: k !in path;
    }
    if n == |keys| {
      assert keys[n..] == [] && names[n..] == [];
    } else {
      PopStep(path, keys[n..], mode, false);
      assert keys[n..][0] == keys[n];
      assert Matching(path, keys[n], mode) == {};
    }
  }

  /** On a path holding the spelled pairs from `j` on, grammar key j matches only its own
      spelled key, if `mode` accepts that spelling; popping it leaves the pairs from j + 1. */
  lemma HoldsStep(path: map<string, string>, keys: seq<string>,
                  spelled: seq<string>, names: seq<string>, mode: Mode, j: nat)
    requires FoldDistinct(keys) && j < |spelled| <= |keys|
    requires forall i :: 0 <= i < |spelled| ==> EqualFold(spelled[i], keys[i])
    requires Holds(path, spelled, names, j)
    ensures Matching(path, keys[j], mode) ==
      if KeyMatches(mode, spelled[j], keys[j]) then {spelled[j]} else {}
    ensures Holds(path - {spelled[j]}, spelled, names, j + 1)
  {
    var c := keys[j];
    var n := |spelled|;
    assert forall i :: j < i < n ==> !EqualFold(spelled[i], c) && spelled[i] != spelled[j] by {
      forall i | j < i < n ensures !EqualFold(spelled[i], c) && spelled[i] != spelled[j] {
        assert !EqualFold(keys[i], keys[j]);
      }
    }
  }

  /** A key equal up to case to a plain key is plain. */
  lemma FoldPlain(a: string, b: string)
    requires EqualFold(a, b) && Plain(b)
    ensures Plain(a)
  {
    assert |a| == |Lower(a)| == |Lower(b)| == |b|;
    forall i | 0 <= i < |a|
      ensures a[i] != '/' && a[i] != '?' && a[i] != '%' && !IsControl(a[i])
    {
      assert LowerChar(a[i]) == Lower(a)[i] == Lower(b)[i] == LowerChar(b[i]);
      assert b[i] in b;
    }
    forall c | c in a ensures !IsControl(c) {
      var i :| 0 <= i < |a| && a[i] == c;
    }
  }

  /** What either parser makes of a scaffolded path (any namespace, with or without a
      trailing '/') whose pairs spell a prefix of the grammar's keys, each equal to its
      grammar key up to case: the fields when `mode` accepts every spelling and no key is
      missing, else MissingElement for the first key spelled otherwise or absent. */
  lemma ParseScaffolded(g: Grammar, mode: Mode, s: string, r: string, ns: string,
                        spelled: seq<string>, names: seq<string>, trailing: bool)
    requires FoldDistinct(g.keys)
    requires forall i :: 0 <= i < |g.keys| ==> !EqualFold(g.keys[i], "resourceGroups")
    requires Plain(s) && Plain(r) && Plain(ns) && |spelled| == |names| <= |g.keys|
    requires forall i :: 0 <= i < |spelled| ==>
      Plain(spelled[i]) && Plain(names[i]) && EqualFold(spelled[i], g.keys[i])
    ensures var m := FirstMismatch(mode, spelled, g.keys, 0);
      Parse(g, mode, Pairs(Scaffold + spelled, [s, r, ns] + names) + (if trailing then "/" else "")) ==
        if m == |g.keys| then Ok(Fields(s, r, names)) else Err(MissingElement(g.keys[m]))
  {
    var ks, vs := Scaffold + spelled, [s, r, ns] + names;
    assert forall i, j :: 0 <= i < j < |spelled| ==> spelled[i] != spelled[j] by {
      forall i, j | 0 <= i < j < |spelled| ensures spelled[i] != spelled[j] {
        assert !EqualFold(g.keys[i], g.keys[j]);
      }
    }
    assert forall i :: 0 <= i < |spelled| ==> spelled[i] != "resourceGroups" by {
      forall i | 0 <= i < |spelled| ensures spelled[i] != "resourceGroups" {
        assert !EqualFold(g.keys[i], "resourceGroups");
      }
    }
    ScaffoldPlain("resourceGroups", s, r, ns, spelled, names);
    SplitPairs(ks, vs, trailing);
    ScaffoldComponents("resourceGroups", s, r, ns, spelled, names);
    AssignHolds(spelled, names);
    PopPairs(Assign(map[], spelled, names), g.keys, spelled, names, mode, 0);
    assert g.keys[0..] == g.keys && names[0..] == names;
  }

  /** Every mode accepts the grammar's own spelling of its keys. */
  lemma NoMismatch(mode: Mode, keys: seq<string>, j: nat)
    requires j <= |keys|
    ensures FirstMismatch(mode, keys, keys, j) == |keys|
    decreases |keys| - j
  {
    if j < |keys| {
      NoMismatch(mode, keys, j + 1);
    }
  }

  /** The scaffold pairs followed by the grammar pairs: what ParseScaffolded takes apart. */
  lemma FormatScaffolded(g: Grammar, f: Fields, ns: string)
    requires |f.names| == |g.keys|
    ensures Format(Grammar(ns, g.keys), f) ==
            Pairs(Scaffold + g.keys, [f.subscriptionId, f.resourceGroup, ns] + f.names)
  {
    FormatIsPairs(Grammar(ns, g.keys), f);
  }

  /** Round trip: both parsers give back the fields of an identifier ID() rendered, and
      the namespace after "providers" is never compared with the grammar's own. */
  lemma RoundTrip(g: Grammar, mode: Mode, f: Fields, ns: string)
    requires WellFormed(g) && ValidFields(g, f) && Plain(ns)
    ensures Parse(g, mode, Format(Grammar(ns, g.keys), f)) == Ok(f)
  {
    FormatScaffolded(g, f, ns);
    ParseScaffolded(g, mode, f.subscriptionId, f.resourceGroup, ns, g.keys, f.names, false);
    NoMismatch(mode, g.keys, 0);
    assert Format(Grammar(ns, g.keys), f) + "" == Format(Grammar(ns, g.keys), f);
  }

  /** Both parsers also take the resource group from a lower-case "resourcegroups" key: the
      library falls back to that spelling, so such an identifier parses into the fields of
      its canonical form. */
  lemma LowerResourceGroupsAccepted(g: Grammar, mode: Mode, f: Fields, ns: string)
    requires WellFormed(g) && ValidFields(g, f) && Plain(ns)
    ensures Parse(g, mode, Pairs(["subscriptions", "resourcegroups", "providers"] + g.keys,
                                 [f.subscriptionId, f.resourceGroup, ns] + f.names)) == Ok(f)
  {
    RoundTrip(g, mode, f, ns);
    FormatScaffolded(g, f, ns);
    KeysApart(g);
    ScaffoldedSplit("resourcegroups", f.subscriptionId, f.resourceGroup, ns, g.keys, f.names);
    ScaffoldedSplit("resourceGroups", f.subscriptionId, f.resourceGroup, ns, g.keys, f.names);
  }

  /** A scaffolded path without a trailing '/' through the whole library, with either
      resource-group key. */
  lemma ScaffoldedSplit(rg: string, s: string, r: string, ns: string, keys: seq<string>, values: seq<string>)
    requires rg == "resourceGroups" || rg == "resourcegroups"
    requires Plain(s) && Plain(r) && Plain(ns) && |keys| == |values|
    requires forall i :: 0 <= i < |keys| ==> Plain(keys[i]) && Plain(values[i])
    requires forall i, j :: 0 <= i < j < |keys| ==> keys[i] != keys[j]
    requires "resourceGroups" !in keys && rg !in keys
    ensures SplitResourceId(Pairs(["subscriptions", rg, "providers"] + keys, [s, r, ns] + values)) ==
            Ok(Components(s, r, ns, Assign(map[], keys, values)))
  {
    var ks, vs := ["subscriptions", rg, "providers"] + keys, [s, r, ns] + values;
    ScaffoldPlain(rg, s, r, ns, keys, values);
    SplitPairs(ks, vs, false);
    ScaffoldComponents(rg, s, r, ns, keys, values);
    assert Pairs(ks, vs) + "" == Pairs(ks, vs);
  }

  /** The scaffold pairs followed by plain pairs are all plain. */
  lemma ScaffoldPlain(rg: string, s: string, r: string, ns: string, keys: seq<string>, values: seq<string>)
    requires rg == "resourceGroups" || rg == "resourcegroups"
    requires Plain(s) && Plain(r) && Plain(ns) && |keys| == |values|
    requires forall i :: 0 <= i < |keys| ==> Plain(keys[i]) && Plain(values[i])
    ensures var ks := ["subscriptions", rg, "providers"] + keys;
      forall i :: 0 <= i < |ks| ==> Plain(ks[i]) && Plain(([s, r, ns] + values)[i])
  {
    var ks, vs := ["subscriptions", rg, "providers"] + keys, [s, r, ns] + values;
    SubscriptionsKeyPlain();
    ProvidersKeyPlain();
    if rg == "resourcegroups" {
      LowerResourceGroupsKey();
    } else {
      ResourceGroupsKeyPlain();
    }
    forall i | 0 <= i < |ks| ensures Plain(ks[i]) && Plain(vs[i]) {
      if i >= 3 {
        assert ks[i] == keys[i - 3] && vs[i] == values[i - 3];
      }
    }
  }

  // The scaffold keys, each shown plain on its own: literal facts are cheap one at a time.
  lemma SubscriptionsKeyPlain()
    ensures Plain("subscriptions")
  {
  }

  lemma ResourceGroupsKeyPlain()
    ensures Plain("resourceGroups")
  {
  }

  lemma ProvidersKeyPlain()
    ensures Plain("providers")
  {
  }

  /** The keys of a well-formed grammar are distinct and spell neither resource-group key. */
  lemma KeysApart(g: Grammar)
    requires WellFormed(g)
    ensures forall i, j :: 0 <= i < j < |g.keys| ==> g.keys[i] != g.keys[j]
    ensures "resourceGroups" !in g.keys && "resourcegroups" !in g.keys
  {
    LowerResourceGroupsKey();
    forall i, j | 0 <= i < j < |g.keys| ensures g.keys[i] != g.keys[j] {
      assert !EqualFold(g.keys[i], g.keys[j]);
    }
    forall i | 0 <= i < |g.keys| ensures g.keys[i] != "resourceGroups" && g.keys[i] != "resourcegroups" {
      assert !Reserved(g.keys[i]);
    }
  }

  /** The lower-case resource-group key: plain, equal to "resourceGroups" up to case, and
      neither of the other scaffold keys. */
  lemma LowerResourceGroupsKey()
    ensures Plain("resourcegroups") && EqualFold("resourcegroups", "resourceGroups")
    ensures "resourcegroups" != "subscriptions" && "resourcegroups" != "providers"
  {
  }

  /** Parsing, rendering with ID() and parsing again gives the same fields: ID() of a parsed
      identifier is its canonical form. */
  lemma ParseFormatParse(g: Grammar, mode: Mode, input: string)
    requires WellFormed(g) && Parse(g, mode, input).Ok? && ValidFields(g, Parse(g, mode, input).value)
    ensures Parse(g, mode, Format(g, Parse(g, mode, input).value)) == Parse(g, mode, input)
  {
    var f := Parse(g, mode, input).value;
    RoundTrip(g, mode, f, g.namespace);
    assert Grammar(g.namespace, g.keys) == g;
  }

  /** The insensitive parser accepts the resource-type keys in any casing and returns the
      same fields as for the canonical spelling. */
  lemma InsensitiveAcceptsRecased(g: Grammar, spelled: seq<string>, f: Fields)
    requires WellFormed(g) && ValidFields(g, f) && |spelled| == |g.keys|
    requires forall i :: 0 <= i < |g.keys| ==> EqualFold(spelled[i], g.keys[i])
    ensures Parse(g, Insensitive, Format(Grammar(g.namespace, spelled), f)) == Ok(f)
  {
    forall i | 0 <= i < |spelled| ensures Plain(spelled[i]) {
      FoldPlain(spelled[i], g.keys[i]);
    }
    FormatIsPairs(Grammar(g.namespace, spelled), f);
    ParseScaffolded(g, Insensitive, f.subscriptionId, f.resourceGroup, g.namespace, spelled, f.names, false);
    InsensitiveNoMismatch(spelled, g.keys, 0);
    assert Format(Grammar(g.namespace, spelled), f) + "" == Format(Grammar(g.namespace, spelled), f);
  }

  lemma InsensitiveNoMismatch(spelled: seq<string>, keys: seq<string>, j: nat)
    requires |spelled| == |keys| && j <= |keys|
    requires forall i :: 0 <= i < |keys| ==> EqualFold(spelled[i], keys[i])
    ensures FirstMismatch(Insensitive, spelled, keys, j) == |keys|
    decreases |keys| - j
  {
    if j < |keys| {
      InsensitiveNoMismatch(spelled, keys, j + 1);
    }
  }

  /** The strict parser refuses a recased key: the first key spelled otherwise than in the
      grammar is reported missing. */
  lemma StrictRejectsRecased(g: Grammar, spelled: seq<string>, f: Fields, i: nat)
    requires WellFormed(g) && ValidFields(g, f) && |spelled| == |g.keys|
    requires forall l :: 0 <= l < |g.keys| ==> EqualFold(spelled[l], g.keys[l])
    requires i < |g.keys| && spelled[..i] == g.keys[..i] && spelled[i] != g.keys[i]
    ensures Parse(g, Strict, Format(Grammar(g.namespace, spelled), f)) == Err(MissingElement(g.keys[i]))
  {
    forall l | 0 <= l < |spelled| ensures Plain(spelled[l]) {
      FoldPlain(spelled[l], g.keys[l]);
    }
    FormatIsPairs(Grammar(g.namespace, spelled), f);
    ParseScaffolded(g, Strict, f.subscriptionId, f.resourceGroup, g.namespace, spelled, f.names, false);
    StrictMismatch(spelled, g.keys, 0, i);
    assert Format(Grammar(g.namespace, spelled), f) + "" == Format(Grammar(g.namespace, spelled), f);
  }

  lemma StrictMismatch(spelled: seq<string>, keys: seq<string>, j: nat, i: nat)
    requires |spelled| == |keys| && j <= i < |keys|
    requires spelled[..i] == keys[..i] && spelled[i] != keys[i]
    ensures FirstMismatch(Strict, spelled, keys, j) == i
    decreases i - j
  {
    if j < i {
      assert spelled[j] == spelled[..i][j] == keys[..i][j] == keys[j];
      StrictMismatch(spelled, keys, j + 1, i);
    }
  }

  /** An identifier cut off after the j-th resource-type pair (with its trailing '/') is
      refused by both parsers, which report the next key missing. */
  lemma TruncatedRejected(g: Grammar, mode: Mode, f: Fields, j: nat)
    requires WellFormed(g) && j < |g.keys|
    requires Plain(f.subscriptionId) && Plain(f.resourceGroup) && |f.names| == j
    requires forall i :: 0 <= i < j ==> Plain(f.names[i])
    ensures Parse(g, mode, Format(Grammar(g.namespace, g.keys[..j]), f) + "/") ==
            Err(MissingElement(g.keys[j]))
  {
    var spelled := g.keys[..j];
    FormatIsPairs(Grammar(g.namespace, spelled), f);
    ParseScaffolded(g, mode, f.subscriptionId, f.resourceGroup, g.namespace, spelled, f.names, true);
    PrefixNoMismatch(mode, g.keys, j, 0);
  }

  lemma PrefixNoMismatch(mode: Mode, keys: seq<string>, n: nat, j: nat)
    requires j <= n <= |keys|
    ensures FirstMismatch(mode, keys[..n], keys, j) == n
    decreases n - j
  {
    if j < n {
      PrefixNoMismatch(mode, keys, n, j + 1);
    }
  }

  /** A key followed by an empty value (the identifier ends in "/key/") is refused by both
      parsers, whatever precedes it. */
  lemma EmptyValueRejected(g: Grammar, mode: Mode, keys: seq<string>, values: seq<string>, key: string)
    requires |keys| == |values| && Plain(key)
    requires forall i :: 0 <= i < |keys| ==> Plain(keys[i]) && Plain(values[i])
    ensures Parse(g, mode, Pairs(keys, values) + "/" + key + "/") == Err(OddSegmentCount)
  {
    SplitPairsThenKey(keys, values, key);
  }

  /** The empty string is not a request URI. */
  lemma EmptyRejected(g: Grammar, mode: Mode)
    ensures Parse(g, mode, "") == Err(InvalidUri)
  {
  }

  /** "/" alone is one empty segment: not a list of pairs. */
  lemma RootRejected(g: Grammar, mode: Mode)
    ensures Parse(g, mode, "/") == Err(OddSegmentCount)
  {
    ParseAbsolutePath("/");
    assert TrimSuffix(TrimPrefix("/", "/"), "/") == "";
    assert Split("", '/') == [""];
  }

  /** The library runs its key/value loop to the end on plain pairs; a scaffold key it does
      not find with its exact spelling leaves the matching component empty. */
  lemma {:induction false} CollectKeeps(keys: seq<string>, values: seq<string>, acc: Components)
    requires |keys| == |values|
    requires forall i :: 0 <= i < |keys| ==> keys[i] != "" && values[i] != ""
    ensures var c := Collect(Interleave(keys, values), acc);
      && c.Ok?
      && c.value.resourceGroup == acc.resourceGroup
      && ("subscriptions" !in keys ==> c.value.subscriptionId == acc.subscriptionId)
      && (acc.subscriptionId != "" ==> c.value.subscriptionId == acc.subscriptionId)
  {
    if keys != [] {
      CollectStep(keys, values, acc);
      assert forall k :: k in keys[1..] ==> k in keys;
      CollectKeeps(keys[1..], values[1..], Store(acc, keys[0], values[0]));
    }
  }

  /** A key that no pair spells is in the path map after the loop exactly when it was
      before. */
  lemma {:induction false} CollectKeepsAbsent(keys: seq<string>, values: seq<string>, acc: Components, k: string)
    requires |keys| == |values| && k !in keys
    requires forall i :: 0 <= i < |keys| ==> keys[i] != "" && values[i] != ""
    ensures var c := Collect(Interleave(keys, values), acc);
      c.Ok? ==> (k in c.value.path <==> k in acc.path)
  {
    if keys != [] {
      CollectStep(keys, values, acc);
      assert keys[0] != k;
      CollectKeepsAbsent(keys[1..], values[1..], Store(acc, keys[0], values[0]), k);
    }
  }

  /** The components a list of plain pairs parses into. */
  lemma PairsComponents(keys: seq<string>, values: seq<string>, trailing: bool)
    requires |keys| == |values| >= 1
    requires forall i :: 0 <= i < |keys| ==> Plain(keys[i]) && Plain(values[i])
    ensures var c := Collect(Interleave(keys, values), Components("", "", "", map[]));
      c.Ok? && SplitResourceId(Pairs(keys, values) + (if trailing then "/" else "")) == Ok(TakeResourceGroup(c.value))
  {
    SplitPairs(keys, values, trailing);
    Parity(|keys|);
    CollectKeeps(keys, values, Components("", "", "", map[]));
  }

  // The upper-cased scaffold keys, each shown plain and different from "subscriptions" on
  // its own: literal facts are cheap one at a time.
  lemma UpperSubscriptions()
    ensures Plain("SUBSCRIPTIONS") && "SUBSCRIPTIONS" != "subscriptions"
  {
  }

  lemma UpperResourceGroups()
    ensures Plain("RESOURCEGROUPS") && "RESOURCEGROUPS" != "subscriptions"
  {
  }

  lemma UpperProviders()
    ensures Plain("PROVIDERS") && "PROVIDERS" != "subscriptions"
  {
  }

  /** Only the exact spelling "subscriptions" is recognised, in both parsers: an identifier
      without it is refused for a missing subscription. */
  lemma SubscriptionsKeyExact(g: Grammar, mode: Mode, keys: seq<string>, values: seq<string>, trailing: bool)
    requires |keys| == |values| >= 1
    requires forall i :: 0 <= i < |keys| ==> Plain(keys[i]) && Plain(values[i])
    requires "subscriptions" !in keys
    ensures Parse(g, mode, Pairs(keys, values) + (if trailing then "/" else "")) ==
            Err(MissingElement("subscriptions"))
  {
    PairsComponents(keys, values, trailing);
    CollectKeeps(keys, values, Components("", "", "", map[]));
  }

  /** Only the spellings "resourceGroups" and "resourcegroups" are recognised, in both
      parsers: an identifier that starts with its subscription but has neither key is
      refused for a missing resource group. */
  lemma ResourceGroupsKeyRequired(g: Grammar, mode: Mode, keys: seq<string>, values: seq<string>, trailing: bool)
    requires |keys| == |values| >= 1
    requires forall i :: 0 <= i < |keys| ==> Plain(keys[i]) && Plain(values[i])
    requires keys[0] == "subscriptions" && "resourceGroups" !in keys && "resourcegroups" !in keys
    ensures Parse(g, mode, Pairs(keys, values) + (if trailing then "/" else "")) ==
            Err(MissingElement("resourceGroups"))
  {
    PairsComponents(keys, values, trailing);
    var c := CollectAfterSubscription(keys, values);
    assert TakeResourceGroup(c) == c;
    ParseOf(g, mode, Pairs(keys, values) + (if trailing then "/" else ""), c);
  }

  /** The library's loop over pairs that start with the subscription and lack both
      resource-group keys: the subscription is kept, no resource group is found. */
  lemma CollectAfterSubscription(keys: seq<string>, values: seq<string>) returns (c: Components)
    requires |keys| == |values| >= 1
    requires forall i :: 0 <= i < |keys| ==> Plain(keys[i]) && Plain(values[i])
    requires keys[0] == "subscriptions" && "resourceGroups" !in keys && "resourcegroups" !in keys
    ensures Collect(Interleave(keys, values), Components("", "", "", map[])) == Ok(c)
    ensures c.subscriptionId == values[0] && c.resourceGroup == ""
    ensures "resourceGroups" !in c.path && "resourcegroups" !in c.path
  {
    var acc := Components("", "", "", map[]);
    StoreSubscription(values[0]);
    var first := Store(acc, keys[0], values[0]);
    CollectStep(keys, values, acc);
    assert forall k :: k in keys[1..] ==> k in keys;
    CollectKeeps(keys[1..], values[1..], first);
    CollectKeepsAbsent(keys[1..], values[1..], first, "resourceGroups");
    CollectKeepsAbsent(keys[1..], values[1..], first, "resourcegroups");
    c := Collect(Interleave(keys, values), acc).value;
  }

  /** The first "subscriptions" pair sets the subscription and nothing else. */
  lemma StoreSubscription(v: string)
    ensures Store(Components("", "", "", map[]), "subscriptions", v) == Components(v, "", "", map[])
  {
  }

  /** A strict success pops every key of the path. */
  lemma {:induction false} StrictOkKeys(path: map<string, string>, keys: seq<string>, ambiguous: bool)
    requires PopAll(path, keys, Strict, ambiguous).Ok?
    ensures forall k :: k in path ==> k in keys
    decreases |keys|
  {
    if keys == [] {
      assert path == map[];
    } else {
      var c := keys[0];
      PopStep(path, keys, Strict, ambiguous);
      assert Matching(path, c, Strict) == {c};
      StrictOkKeys(path - {c}, keys[1..], ambiguous);
      assert forall k :: k in keys[1..] ==> k in keys;
    }
  }

  /** Where the strict pops succeed, the insensitive ones take the same keys. */
  lemma {:induction false} StrictToInsensitive(path: map<string, string>, keys: seq<string>)
    requires FoldDistinct(keys) && PopAll(path, keys, Strict, false).Ok?
    ensures PopAll(path, keys, Insensitive, false) == PopAll(path, keys, Strict, false)
    decreases |keys|
  {
    if keys != [] {
      var c := keys[0];
      PopStep(path, keys, Strict, false);
      PopStep(path, keys, Insensitive, false);
      assert Matching(path, c, Strict) == {c};
      StrictOkKeys(path - {c}, keys[1..], false);
      assert forall k :: k in path - {c} ==> !EqualFold(k, c) by {
        forall k | k in path - {c} ensures !EqualFold(k, c) {
          var j :| 0 <= j < |keys[1..]| && keys[1..][j] == k;
          assert keys[j + 1] == k;
        }
      }
      assert Matching(path, c, Insensitive) == {c};
      assert FoldDistinct(keys[1..]) by {
        forall i, j | 0 <= i < |keys[1..]| && 0 <= j < |keys[1..]| && i != j
          ensures !EqualFold(keys[1..][i], keys[1..][j])
        {
          assert keys[1..][i] == keys[i + 1] && keys[1..][j] == keys[j + 1];
        }
      }
      StrictToInsensitive(path - {c}, keys[1..]);
    }
  }

  /** The insensitive parser accepts everything the strict one accepts, with the same
      fields. */
  lemma InsensitiveExtendsStrict(g: Grammar, input: string)
    requires FoldDistinct(g.keys) && Parse(g, Strict, input).Ok?
    ensures Parse(g, Insensitive, input) == Parse(g, Strict, input)
  {
    var c := SplitResourceId(input).value;
    ParseOf(g, Strict, input, c);
    ParseOf(g, Insensitive, input, c);
    StrictToInsensitive(c.path, g.keys);
  }

  /** Two path keys that both match grammar key i up to case make the pops fail, whichever
      the key search takes. */
  lemma {:induction false} AmbiguousPopsFail(path: map<string, string>, keys: seq<string>,
                                             ambiguous: bool, i: nat, a: string, b: string)
    requires FoldDistinct(keys) && i < |keys|
    requires a in path && b in path && a != b
    requires EqualFold(a, keys[i]) && EqualFold(b, keys[i])
    ensures PopAll(path, keys, Insensitive, ambiguous).Err?
    decreases i
  {
    var c := keys[0];
    var m := Matching(path, c, Insensitive);
    PopStep(path, keys, Insensitive, ambiguous);
    if i == 0 {
      assert a in m && b in m;
      assert forall k :: m != {k};
    } else {
      assert !EqualFold(keys[i], c);
      assert a !in m && b !in m;
      if k :| m == {k} {
        assert keys[1..][i - 1] == keys[i];
        assert FoldDistinct(keys[1..]) by {
          forall x, y | 0 <= x < |keys[1..]| && 0 <= y < |keys[1..]| && x != y
            ensures !EqualFold(keys[1..][x], keys[1..][y])
          {
            assert keys[1..][x] == keys[x + 1] && keys[1..][y] == keys[y + 1];
          }
        }
        AmbiguousPopsFail(path - {k}, keys[1..], ambiguous, i - 1, a, b);
      }
    }
  }

  /** An identifier whose path has two keys equal up to case to the same resource-type key
      is refused by the insensitive parser. */
  lemma AmbiguousRejected(g: Grammar, input: string, i: nat, a: string, b: string)
    requires FoldDistinct(g.keys) && i < |g.keys| && SplitResourceId(input).Ok?
    requires var path := SplitResourceId(input).value.path;
      a in path && b in path && a != b && EqualFold(a, g.keys[i]) && EqualFold(b, g.keys[i])
    ensures Parse(g, Insensitive, input).Err?
  {
    var c := SplitResourceId(input).value;
    ParseOf(g, Insensitive, input, c);
    AmbiguousPopsFail(c.path, g.keys, false, i, a, b);
  }

  /** Format of a one-key grammar, written out as a template: `infix` is the text between
      the resource group and the name. */
  lemma FormatOne(ns: string, k: string, f: Fields, infix: string)
    requires |f.names| == 1
    requires infix == "/providers/" + ns + "/" + k + "/"
    ensures Format(Grammar(ns, [k]), f) ==
      "/subscriptions/" + f.subscriptionId + "/resourceGroups/" + f.resourceGroup + infix + f.names[0]
  {
    assert Pairs([k], f.names) == "/" + k + "/" + f.names[0];
  }

  /** Format of a two-key grammar, written out as a template: `infix1` and `infix2` are the
      texts before the first and the second name. */
  lemma FormatTwo(ns: string, k1: string, k2: string, f: Fields, infix1: string, infix2: string)
    requires |f.names| == 2
    requires infix1 == "/providers/" + ns + "/" + k1 + "/"
    requires infix2 == "/" + k2 + "/"
    ensures Format(Grammar(ns, [k1, k2]), f) ==
      "/subscriptions/" + f.subscriptionId + "/resourceGroups/" + f.resourceGroup
        + infix1 + f.names[0] + infix2 + f.names[1]
  {
    assert [k1, k2][1..] == [k2] && f.names[1..] == [f.names[1]];
    assert Pairs([k2], [f.names[1]]) == "/" + k2 + "/" + f.names[1];
  }

  /** FormatTwo with the namespace apart: `mid1` and `mid2` are "/key/" for the two keys. */
  lemma FormatTwoNamespace(ns: string, k1: string, k2: string, f: Fields, mid1: string, mid2: string)
    requires |f.names| == 2
    requires mid1 == "/" + k1 + "/" && mid2 == "/" + k2 + "/"
    ensures Format(Grammar(ns, [k1, k2]), f) ==
      "/subscriptions/" + f.subscriptionId + "/resourceGroups/" + f.resourceGroup
        + "/providers/" + ns + mid1 + f.names[0] + mid2 + f.names[1]
  {
    assert [k1, k2][1..] == [k2] && f.names[1..] == [f.names[1]];
    assert Pairs([k2], [f.names[1]]) == "/" + k2 + "/" + f.names[1];
  }

  /** FormatTwo with the keys apart: `lead` is the text from "/providers" to the first key. */
  lemma FormatTwoKeys(ns: string, k1: string, k2: string, f: Fields, lead: string)
    requires |f.names| == 2
    requires lead == "/providers/" + ns + "/"
    ensures Format(Grammar(ns, [k1, k2]), f) ==
      "/subscriptions/" + f.subscriptionId + "/resourceGroups/" + f.resourceGroup
        + lead + k1 + "/" + f.names[0] + "/" + k2 + "/" + f.names[1]
  {
    assert [k1, k2][1..] == [k2] && f.names[1..] == [f.names[1]];
    assert Pairs([k2], [f.names[1]]) == "/" + k2 + "/" + f.names[1];
  }

  /** A grammar whose keys are plain and whose lengths differ from each other and from
      the three scaffold keys is well formed: lengths decide case-insensitive difference. */
  lemma WellFormedByLength(g: Grammar)
    requires Plain(g.namespace) && |g.keys| >= 1
    requires forall i :: 0 <= i < |g.keys| ==> Plain(g.keys[i])
    requires forall i :: 0 <= i < |g.keys| ==> |g.keys[i]| !in {9, 13, 14}
    requires forall i, j :: 0 <= i < j < |g.keys| ==> |g.keys[i]| != |g.keys[j]|
    ensures WellFormed(g)
  {
    forall i | 0 <= i < |g.keys|
      ensures !Reserved(g.keys[i])
    {
      assert |Lower(g.keys[i])| != |Lower("providers")|;
      assert |Lower(g.keys[i])| != |Lower("subscriptions")|;
      assert |Lower(g.keys[i])| != |Lower("resourceGroups")|;
    }
    forall i, j | 0 <= i < |g.keys| && 0 <= j < |g.keys| && i != j
      ensures !EqualFold(g.keys[i], g.keys[j])
    {
      assert |Lower(g.keys[i])| != |Lower(g.keys[j])|;
    }
  }

  /** WellFormedByLength for a grammar of one key. */
  lemma WellFormedOne(ns: string, k: string)
    requires Plain(ns) && Plain(k) && |k| !in {9, 13, 14}
    ensures WellFormed(Grammar(ns, [k]))
  {
    WellFormedByLength(Grammar(ns, [k]));
  }

  /** WellFormedByLength for a grammar of two keys. */
  lemma WellFormedTwo(ns: string, k1: string, k2: string)
    requires Plain(ns) && Plain(k1) && Plain(k2)
    requires |k1| !in {9, 13, 14} && |k2| !in {9, 13, 14} && |k1| != |k2|
    ensures WellFormed(Grammar(ns, [k1, k2]))
  {
    WellFormedByLength(Grammar(ns, [k1, k2]));
  }

  // The vectors of the generated test files, for any grammar. Each input is written in the
  // shape the tests use, with the placeholder values as parameters; `lead` and `mid` stand
  // for the literal runs of the template ("/providers/Microsoft.KeyVault/vaults/", ...).

  /** A key without its value, as "/subscriptions/": an odd number of segments. */
  lemma KeyWithoutValueRejected(g: Grammar, mode: Mode, key: string)
    requires Plain(key)
    ensures Parse(g, mode, "/" + key + "/") == Err(OddSegmentCount)
  {
    EmptyValueRejected(g, mode, [], [], key);
    KeyWithoutValueText(key);
  }

  lemma KeyWithoutValueText(key: string)
    ensures Pairs([], []) + "/" + key + "/" == "/" + key + "/"
  {
    assert Pairs([], []) == "";
  }

  /** "/subscriptions/{s}/": the resource group is missing. */
  lemma SubscriptionOnlyRejected(g: Grammar, mode: Mode, s: string)
    requires Plain(s)
    ensures Parse(g, mode, "/subscriptions/" + s + "/") == Err(MissingElement("resourceGroups"))
  {
    ResourceGroupsKeyRequired(g, mode, ["subscriptions"], [s], true);
    SubscriptionText(s);
  }

  lemma SubscriptionText(s: string)
    ensures Pairs(["subscriptions"], [s]) == "/subscriptions/" + s
    ensures Pairs(["subscriptions"], [s]) + (if true then "/" else "") == "/subscriptions/" + s + "/"
    ensures Pairs(["subscriptions"], [s]) + "/" + "resourceGroups" + "/" == "/subscriptions/" + s + "/resourceGroups/"
  {
    SubscriptionPair(s);
    ResourceGroupsRun();
    var x := Pairs(["subscriptions"], [s]);
    assert x + "/" + "resourceGroups" + "/" == x + ("/" + "resourceGroups" + "/");
  }

  /** The one "/subscriptions/{s}" pair. */
  lemma SubscriptionPair(s: string)
    ensures Pairs(["subscriptions"], [s]) == "/subscriptions/" + s
  {
    SubscriptionsRun();
    assert ["subscriptions"][1..] == [] && [s][1..] == [];
    assert Pairs([], []) == "";
  }


  /** "/subscriptions/{s}/resourceGroups/": the resource group has no value. */
  lemma ResourceGroupWithoutValueRejected(g: Grammar, mode: Mode, s: string)
    requires Plain(s)
    ensures Parse(g, mode, "/subscriptions/" + s + "/resourceGroups/") == Err(OddSegmentCount)
  {
    SubscriptionsKeyPlain();
    ResourceGroupsKeyPlain();
    EmptyValueRejected(g, mode, ["subscriptions"], [s], "resourceGroups");
    SubscriptionText(s);
  }

  /** The identifier cut after the namespace: the first resource-type key is missing. */
  lemma NamespaceOnlyRejected(g: Grammar, mode: Mode, s: string, r: string, lead: string)
    requires WellFormed(g) && Plain(s) && Plain(r)
    requires lead == "/providers/" + g.namespace + "/"
    ensures Parse(g, mode, "/subscriptions/" + s + "/resourceGroups/" + r + lead) ==
            Err(MissingElement(g.keys[0]))
  {
    TruncatedRejected(g, mode, Fields(s, r, []), 0);
    NamespaceText(g, s, r, lead);
  }

  lemma NamespaceText(g: Grammar, s: string, r: string, lead: string)
    requires lead == "/providers/" + g.namespace + "/"
    ensures Format(Grammar(g.namespace, g.keys[..0]), Fields(s, r, [])) + "/" ==
            "/subscriptions/" + s + "/resourceGroups/" + r + lead
  {
    assert g.keys[..0] == [];
    assert Pairs([], []) == "";
  }

  /** The first resource-type key without its value: an odd number of segments. */
  lemma FirstValueMissingRejected(g: Grammar, mode: Mode, s: string, r: string, lead: string)
    requires WellFormed(g) && Plain(s) && Plain(r)
    requires lead == "/providers/" + g.namespace + "/" + g.keys[0] + "/"
    ensures Parse(g, mode, "/subscriptions/" + s + "/resourceGroups/" + r + lead) == Err(OddSegmentCount)
  {
    var ns := g.namespace;
    ScaffoldPlain("resourceGroups", s, r, ns, [], []);
    assert Scaffold + [] == Scaffold && [s, r, ns] + [] == [s, r, ns];
    EmptyValueRejected(g, mode, Scaffold, [s, r, ns], g.keys[0]);
    FirstValueText(ns, g.keys[0], s, r, lead);
  }

  lemma FirstValueText(ns: string, k: string, s: string, r: string, lead: string)
    requires lead == "/providers/" + ns + "/" + k + "/"
    ensures Pairs(Scaffold, [s, r, ns]) + "/" + k + "/" == "/subscriptions/" + s + "/resourceGroups/" + r + lead
  {
    FormatIsPairs(Grammar(ns, []), Fields(s, r, []));
    assert Scaffold + [] == Scaffold && [s, r, ns] + [] == [s, r, ns];
    assert Pairs([], []) == "";
  }

  /** The identifier cut after the first resource-type pair: the second key is missing. */
  lemma SecondKeyMissingRejected(g: Grammar, mode: Mode, s: string, r: string, v: string, lead: string)
    requires WellFormed(g) && |g.keys| >= 2 && Plain(s) && Plain(r) && Plain(v)
    requires lead == "/providers/" + g.namespace + "/" + g.keys[0] + "/"
    ensures Parse(g, mode, "/subscriptions/" + s + "/resourceGroups/" + r + lead + v + "/") ==
            Err(MissingElement(g.keys[1]))
  {
    TruncatedRejected(g, mode, Fields(s, r, [v]), 1);
    assert g.keys[..1] == [g.keys[0]];
    FormatOne(g.namespace, g.keys[0], Fields(s, r, [v]), lead);
  }

  /** The second resource-type key without its value: an odd number of segments. */
  lemma SecondValueMissingRejected(g: Grammar, mode: Mode, s: string, r: string, v: string,
                                   lead: string, mid: string)
    requires WellFormed(g) && |g.keys| >= 2 && Plain(s) && Plain(r) && Plain(v)
    requires lead == "/providers/" + g.namespace + "/" + g.keys[0] + "/"
    requires mid == "/" + g.keys[1] + "/"
    ensures Parse(g, mode, "/subscriptions/" + s + "/resourceGroups/" + r + lead + v + mid) ==
            Err(OddSegmentCount)
  {
    var ns := g.namespace;
    ScaffoldPlain("resourceGroups", s, r, ns, [g.keys[0]], [v]);
    assert [s, r, ns] + [v] == [s, r, ns, v];
    EmptyValueRejected(g, mode, Scaffold + [g.keys[0]], [s, r, ns, v], g.keys[1]);
    SecondValueText(ns, g.keys[0], g.keys[1], s, r, v, lead, mid);
  }

  lemma SecondValueText(ns: string, k1: string, k2: string, s: string, r: string, v: string,
                        lead: string, mid: string)
    requires lead == "/providers/" + ns + "/" + k1 + "/" && mid == "/" + k2 + "/"
    ensures Pairs(Scaffold + [k1], [s, r, ns, v]) + "/" + k2 + "/" ==
            "/subscriptions/" + s + "/resourceGroups/" + r + lead + v + mid
  {
    var f := Fields(s, r, [v]);
    FormatIsPairs(Grammar(ns, [k1]), f);
    assert [s, r, ns] + [v] == [s, r, ns, v];
    FormatOne(ns, k1, f, lead);
  }

  /** A two-key identifier with its keys spelled `k1` and `k2`, equal up to case to the
      grammar's: the insensitive parser accepts it. */
  lemma InsensitiveRecasedTwo(g: Grammar, f: Fields, k1: string, k2: string, lead: string)
    requires WellFormed(g) && |g.keys| == 2 && ValidFields(g, f)
    requires EqualFold(k1, g.keys[0]) && EqualFold(k2, g.keys[1])
    requires lead == "/providers/" + g.namespace + "/"
    ensures Parse(g, Insensitive, "/subscriptions/" + f.subscriptionId + "/resourceGroups/" + f.resourceGroup
                                  + lead + k1 + "/" + f.names[0] + "/" + k2 + "/" + f.names[1]) == Ok(f)
  {
    FormatTwoKeys(g.namespace, k1, k2, f, lead);
    InsensitiveAcceptsRecased(g, [k1, k2], f);
  }

  /** The same identifier before the strict parser: accepted only with the grammar's own
      spelling, and otherwise the first key spelled otherwise is reported missing. */
  lemma StrictRecasedTwo(g: Grammar, f: Fields, k1: string, k2: string, lead: string)
    requires WellFormed(g) && |g.keys| == 2 && ValidFields(g, f)
    requires EqualFold(k1, g.keys[0]) && EqualFold(k2, g.keys[1])
    requires lead == "/providers/" + g.namespace + "/"
    ensures Parse(g, Strict, "/subscriptions/" + f.subscriptionId + "/resourceGroups/" + f.resourceGroup
                             + lead + k1 + "/" + f.names[0] + "/" + k2 + "/" + f.names[1]) ==
      if k1 != g.keys[0] then Err(MissingElement(g.keys[0]))
      else if k2 != g.keys[1] then Err(MissingElement(g.keys[1]))
      else Ok(f)
  {
    FormatTwoKeys(g.namespace, k1, k2, f, lead);
    StrictSpelledTwo(g, f, k1, k2);
  }

  /** StrictRecasedTwo on the formatted identifier. */
  lemma StrictSpelledTwo(g: Grammar, f: Fields, k1: string, k2: string)
    requires WellFormed(g) && |g.keys| == 2 && ValidFields(g, f)
    requires EqualFold(k1, g.keys[0]) && EqualFold(k2, g.keys[1])
    ensures Parse(g, Strict, Format(Grammar(g.namespace, [k1, k2]), f)) ==
      if k1 != g.keys[0] then Err(MissingElement(g.keys[0]))
      else if k2 != g.keys[1] then Err(MissingElement(g.keys[1]))
      else Ok(f)
  {
    var spelled := [k1, k2];
    assert forall l :: 0 <= l < |g.keys| ==> EqualFold(spelled[l], g.keys[l]) by {
      assert spelled[0] == k1 && spelled[1] == k2;
    }
    if k1 != g.keys[0] {
      StrictMismatchAt(g, spelled, f, 0);
    } else if k2 != g.keys[1] {
      assert spelled[..1] == g.keys[..1];
      StrictMismatchAt(g, spelled, f, 1);
    } else {
      StrictSameSpelling(g, spelled, f);
    }
  }

  /** StrictRejectsRecased, its requires checked apart. */
  lemma StrictMismatchAt(g: Grammar, spelled: seq<string>, f: Fields, i: nat)
    requires WellFormed(g) && ValidFields(g, f) && |spelled| == |g.keys|
    requires forall l :: 0 <= l < |g.keys| ==> EqualFold(spelled[l], g.keys[l])
    requires i < |g.keys| && spelled[..i] == g.keys[..i] && spelled[i] != g.keys[i]
    ensures Parse(g, Strict, Format(Grammar(g.namespace, spelled), f)) == Err(MissingElement(g.keys[i]))
  {
    StrictRejectsRecased(g, spelled, f, i);
  }

  /** The grammar's own spelling: the round trip. */
  lemma StrictSameSpelling(g: Grammar, spelled: seq<string>, f: Fields)
    requires WellFormed(g) && ValidFields(g, f) && spelled == g.keys
    ensures Parse(g, Strict, Format(Grammar(g.namespace, spelled), f)) == Ok(f)
  {
    RoundTrip(g, Strict, f, g.namespace);
  }

  /** FormatOne with the key apart. */
  lemma FormatOneKey(ns: string, k: string, f: Fields, lead: string)
    requires |f.names| == 1
    requires lead == "/providers/" + ns + "/"
    ensures Format(Grammar(ns, [k]), f) ==
      "/subscriptions/" + f.subscriptionId + "/resourceGroups/" + f.resourceGroup + lead + k + "/" + f.names[0]
  {
    assert Pairs([k], f.names) == "/" + k + "/" + f.names[0];
  }

  /** A one-key identifier with its key spelled `k`, equal up to case to the grammar's:
      the insensitive parser accepts it. */
  lemma InsensitiveRecasedOne(g: Grammar, f: Fields, k: string, lead: string)
    requires WellFormed(g) && |g.keys| == 1 && ValidFields(g, f)
    requires EqualFold(k, g.keys[0])
    requires lead == "/providers/" + g.namespace + "/"
    ensures Parse(g, Insensitive, "/subscriptions/" + f.subscriptionId + "/resourceGroups/" + f.resourceGroup
                                  + lead + k + "/" + f.names[0]) == Ok(f)
  {
    FormatOneKey(g.namespace, k, f, lead);
    InsensitiveAcceptsRecased(g, [k], f);
  }

  /** The same identifier before the strict parser: accepted only with the grammar's own
      spelling of the key, and otherwise the key is reported missing. */
  lemma StrictRecasedOne(g: Grammar, f: Fields, k: string, lead: string)
    requires WellFormed(g) && |g.keys| == 1 && ValidFields(g, f)
    requires EqualFold(k, g.keys[0])
    requires lead == "/providers/" + g.namespace + "/"
    ensures Parse(g, Strict, "/subscriptions/" + f.subscriptionId + "/resourceGroups/" + f.resourceGroup
                             + lead + k + "/" + f.names[0]) ==
      if k != g.keys[0] then Err(MissingElement(g.keys[0])) else Ok(f)
  {
    FormatOneKey(g.namespace, k, f, lead);
    StrictSpelledOne(g, f, k);
  }

  /** StrictRecasedOne on the formatted identifier. */
  lemma StrictSpelledOne(g: Grammar, f: Fields, k: string)
    requires WellFormed(g) && |g.keys| == 1 && ValidFields(g, f)
    requires EqualFold(k, g.keys[0])
    ensures Parse(g, Strict, Format(Grammar(g.namespace, [k]), f)) ==
      if k != g.keys[0] then Err(MissingElement(g.keys[0])) else Ok(f)
  {
    var spelled := [k];
    assert forall l :: 0 <= l < |g.keys| ==> EqualFold(spelled[l], g.keys[l]) by {
      assert spelled[0] == k;
    }
    if k != g.keys[0] {
      StrictMismatchAt(g, spelled, f, 0);
    } else {
      assert spelled == g.keys;
      StrictSameSpelling(g, spelled, f);
    }
  }
}
