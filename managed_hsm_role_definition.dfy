/** The Managed HSM role-definition identifier: a data-plane URL
    "<scheme>://<host>/<scope>/RoleDefinition/<name>", where the scope may itself hold '/'
    and the name may not. It is rendered by joining its parts and parsed by cutting the URL
    path at its last two '/'. */
module ManagedHsmRoleDefinition {
  import opened Wrappers
  import opened Text
  import opened Urls

  /** The fixed resource-type segment between scope and name. */
  const RoleDefinitionType := "RoleDefinition"

  /** The type segment holds no path separator and is kept verbatim in a path. */
  lemma TypeIsPlain()
    ensures '/' !in RoleDefinitionType && Verbatim(RoleDefinitionType)
  {
  }

  datatype ManagedHsmRoleDefinitionId = ManagedHsmRoleDefinitionId(
    vaultBaseUrl: string,
    scope: string,
    name: string)
  {
    /** The base URL without its trailing '/', then scope, type and name, joined with '/';
        a '/' that ends the whole text is dropped once. */
    function ID(): (r: string)
      ensures r == TrimSuffix(TrimSuffix(vaultBaseUrl, "/") + "/" + scope + "/" + RoleDefinitionType + "/" + name, "/")
    {
      var segments := [TrimSuffix(vaultBaseUrl, "/"), scope, RoleDefinitionType, name];
      JoinFour(segments[0], scope, RoleDefinitionType, name, "/");
      TrimSuffix(Join(segments, "/"), "/")
    }

    /** String() is the same text as ID(). */
    function String(): (r: string)
      ensures r == ID()
    {
      ID()
    }
  }

  /** Why a base URL or a role-definition identifier is refused. */
  datatype RoleDefinitionError =
    | InvalidBaseUrl
    | InvalidUri
    | NoNameSeparator
    | NoTypeSeparator
    | InvalidType(typ: string)

  /** NewManagedHSMRoleDefinitionID. `rendered` is what url.Parse makes of the base URL,
      written back out by its String method, or None when url.Parse fails. The empty base
      URL is refused even though url.Parse accepts it; scope and name are kept unchanged. */
  function NewManagedHSMRoleDefinitionID(hsmBaseUrl: string, rendered: Option<string>, scope: string, name: string)
    : (r: Result<ManagedHsmRoleDefinitionId, RoleDefinitionError>)
    ensures r.Err? <==> hsmBaseUrl == "" || rendered.None?
    ensures r.Err? ==> r.error == InvalidBaseUrl
    ensures r.Ok? ==> r.value.vaultBaseUrl == rendered.value && r.value.scope == scope && r.value.name == name
  {
    if rendered.None? || hsmBaseUrl == "" then Err(InvalidBaseUrl)
    else Ok(ManagedHsmRoleDefinitionId(rendered.value, scope, name))
  }

  /** The URL path with one leading and one trailing '/' removed, when present. */
  function Trimmed(path: string): string
  {
    TrimSuffix(TrimPrefix(path, "/"), "/")
  }

  /** The base URL the parser rebuilds: scheme and host only. */
  function BaseUrl(u: Url): string
  {
    u.scheme + "://" + u.host + "/"
  }

  /** The part of the parser after the URL is read: the trimmed path is cut at its last '/'
      into the rest and the name, and the rest at its last '/' into scope and type; neither
      cut may be at the start, and the type must be "RoleDefinition", with this exact casing. */
  function ParseUrl(u: Url): (r: Result<ManagedHsmRoleDefinitionId, RoleDefinitionError>)
    ensures r.Ok? ==> r.value.vaultBaseUrl == BaseUrl(u)
    ensures r.Ok? ==> r.value.scope != "" && '/' !in r.value.name
    ensures r.Err? ==> r.error != InvalidUri
  {
    var path := Trimmed(u.path);
    var nameSep := LastIndex(path, '/');
    if nameSep <= 0 then Err(NoNameSeparator)
    else
      var rest, name := path[..nameSep], path[nameSep + 1..];
      var typeSep := LastIndex(rest, '/');
      if typeSep <= 0 then Err(NoTypeSeparator)
      else
        var scope, typ := rest[..typeSep], rest[typeSep + 1..];
        if typ != RoleDefinitionType then Err(InvalidType(typ))
        else Ok(ManagedHsmRoleDefinitionId(BaseUrl(u), scope, name))
  }

  /** ManagedHSMRoleDefinitionID: the parser. A text url.ParseRequestURI refuses is an
      invalid URI; otherwise the URL's path decides. */
  function ManagedHSMRoleDefinitionID(input: string): (r: Result<ManagedHsmRoleDefinitionId, RoleDefinitionError>)
    ensures ParseRequestUri(input).None? <==> r == Err(InvalidUri)
    ensures ParseRequestUri(input).Some? ==> r == ParseUrl(ParseRequestUri(input).value)
  {
    match ParseRequestUri(input)
    case None => Err(InvalidUri)
    case Some(u) => ParseUrl(u)
  }

  /** What ParseUrl accepts reads scope + "/RoleDefinition/" + name. */
  lemma ParseUrlOk(u: Url)
    requires ParseUrl(u).Ok?
    ensures var id := ParseUrl(u).value;
      Trimmed(u.path) == id.scope + "/" + RoleDefinitionType + "/" + id.name
  {
    var path := Trimmed(u.path);
    var nameSep := LastIndex(path, '/');
    assert nameSep > 0;
    var rest, name := path[..nameSep], path[nameSep + 1..];
    var typeSep := LastIndex(rest, '/');
    assert typeSep > 0;
    var scope, typ := rest[..typeSep], rest[typeSep + 1..];
    assert typ == RoleDefinitionType;
    assert ParseUrl(u).value == ManagedHsmRoleDefinitionId(BaseUrl(u), scope, name);
    SplitAround(path, nameSep);
    SplitAround(rest, typeSep);
  }

  /** A trimmed path scope + "/" + typ + "/" + name, with a non-empty scope and no '/' in
      typ or name, is cut into exactly those three: ParseUrl accepts it when typ is
      "RoleDefinition" and reports typ as an invalid type otherwise. */
  lemma ParseUrlCut(u: Url, scope: string, typ: string, name: string)
    requires scope != [] && '/' !in typ && '/' !in name
    requires Trimmed(u.path) == scope + "/" + typ + "/" + name
    ensures ParseUrl(u) == if typ == RoleDefinitionType then Ok(ManagedHsmRoleDefinitionId(BaseUrl(u), scope, name))
                           else Err(InvalidType(typ))
  {
    var head := scope + "/" + typ;
    assert Trimmed(u.path) == head + ['/'] + name;
    LastIndexSeam(head, '/', name);
    assert head == scope + ['/'] + typ;
    LastIndexSeam(scope, '/', typ);
  }

  /** ParseUrl accepts every path that reads scope + "/RoleDefinition/" + name. */
  lemma ParseUrlOfShape(u: Url, scope: string, name: string)
    requires scope != [] && '/' !in name
    requires Trimmed(u.path) == scope + "/" + RoleDefinitionType + "/" + name
    ensures ParseUrl(u) == Ok(ManagedHsmRoleDefinitionId(BaseUrl(u), scope, name))
  {
    TypeIsPlain();
    ParseUrlCut(u, scope, RoleDefinitionType, name);
  }

  /** ParseUrl succeeds exactly on URLs whose trimmed path reads
      scope + "/RoleDefinition/" + name, with a non-empty scope and a name without '/', and
      then returns the scheme-and-host base, that scope and that name. */
  lemma ParseUrlIff(u: Url, id: ManagedHsmRoleDefinitionId)
    ensures ParseUrl(u) == Ok(id) <==>
      && id.vaultBaseUrl == BaseUrl(u)
      && id.scope != [] && '/' !in id.name
      && Trimmed(u.path) == id.scope + "/" + RoleDefinitionType + "/" + id.name
  {
    if ParseUrl(u) == Ok(id) {
      ParseUrlOk(u);
    }
    if && id.vaultBaseUrl == BaseUrl(u)
       && id.scope != [] && '/' !in id.name
       && Trimmed(u.path) == id.scope + "/" + RoleDefinitionType + "/" + id.name
    {
      ParseUrlOfShape(u, id.scope, id.name);
    }
  }

  /** The parser succeeds exactly on request URIs whose trimmed path reads
      scope + "/RoleDefinition/" + name, with a non-empty scope and a name without '/', and
      then returns the scheme-and-host base, that scope and that name. */
  lemma ParseIff(input: string, id: ManagedHsmRoleDefinitionId)
    ensures ManagedHSMRoleDefinitionID(input) == Ok(id) <==>
      && ParseRequestUri(input).Some?
      && id.vaultBaseUrl == BaseUrl(ParseRequestUri(input).value)
      && id.scope != [] && '/' !in id.name
      && Trimmed(ParseRequestUri(input).value.path) == id.scope + "/" + RoleDefinitionType + "/" + id.name
  {
    if ParseRequestUri(input).Some? {
      ParseUrlIff(ParseRequestUri(input).value, id);
    }
  }

  /** Trimmed removes exactly one '/' at each end, however many there are. */
  lemma TrimmedOnce(inner: string)
    ensures Trimmed("/" + inner + "/") == inner
  {
    var p := "/" + inner + "/";
    assert TrimPrefix(p, "/") == inner + "/";
  }

  /** No '/' after the first character. */
  predicate NoInnerSlash(s: string)
  {
    forall i :: 0 < i < |s| ==> s[i] != '/'
  }

  /** The first two errors of the parser: no '/' after the start of the trimmed path, and
      no '/' after the start of what precedes its last '/'. */
  lemma SeparatorErrors(u: Url)
    ensures var p := Trimmed(u.path);
      && (ParseUrl(u) == Err(NoNameSeparator) <==> NoInnerSlash(p))
      && (!NoInnerSlash(p) ==>
            (ParseUrl(u) == Err(NoTypeSeparator) <==> NoInnerSlash(p[..LastIndex(p, '/')])))
  {
    var p := Trimmed(u.path);
    LastIndexAfterStart(p, '/');
    if !NoInnerSlash(p) {
      LastIndexAfterStart(p[..LastIndex(p, '/')], '/');
    }
  }

  /** The type segment is compared with its exact casing: any other segment there, such as
      "roledefinition", is reported as an invalid type. */
  lemma OtherTypeRejected(u: Url, scope: string, typ: string, name: string)
    requires scope != [] && '/' !in typ && '/' !in name
    requires typ != RoleDefinitionType
    requires Trimmed(u.path) == scope + "/" + typ + "/" + name
    ensures ParseUrl(u) == Err(InvalidType(typ))
  {
    ParseUrlCut(u, scope, typ, name);
  }

  /** A role-definition identifier whose base URL is scheme://host/, with a lower-case
      scheme, a plain host (a name with an optional numeric port, which the request-URI
      parser keeps as it is), a non-empty scope and a non-empty name without '/', and scope
      and name kept verbatim by that parser (no '?', no '%', no control character). */
  predicate Canonical(id: ManagedHsmRoleDefinitionId, scheme: string, host: string)
  {
    && IsScheme(scheme) && Lower(scheme) == scheme
    && PlainHost(host)
    && id.vaultBaseUrl == scheme + "://" + host + "/"
    && id.scope != [] && Verbatim(id.scope)
    && id.name != [] && '/' !in id.name && Verbatim(id.name)
  }

  /** The text ID() renders for a canonical identifier: the base, then the path. */
  lemma IdOfCanonical(id: ManagedHsmRoleDefinitionId, scheme: string, host: string)
    requires Canonical(id, scheme, host)
    ensures id.ID() == scheme + "://" + host + ("/" + (id.scope + "/" + RoleDefinitionType + "/" + id.name))
  {
    var base := scheme + "://" + host;
    assert id.vaultBaseUrl == base + "/";
    assert TrimSuffix(id.vaultBaseUrl, "/") == base;
    var full := base + "/" + id.scope + "/" + RoleDefinitionType + "/" + id.name;
    assert full[|full| - 1] == id.name[|id.name| - 1];
    assert id.name[|id.name| - 1] in id.name;
    assert !HasSuffix(full, "/");
  }

  /** Round trip: the parser reads back every canonical identifier ID() renders. */
  lemma RoundTrip(id: ManagedHsmRoleDefinitionId, scheme: string, host: string)
    requires Canonical(id, scheme, host)
    ensures ManagedHSMRoleDefinitionID(id.ID()) == Ok(id)
  {
    IdOfCanonical(id, scheme, host);
    var path := "/" + (id.scope + "/" + RoleDefinitionType + "/" + id.name);
    CanonicalPath(id.scope, id.name);
    PlainHostParts(host);
    ParseSchemeHostPath(scheme, host, path);
    var u := Url(scheme, host, path);
    assert BaseUrl(u) == id.vaultBaseUrl;
    ParseUrlOfShape(u, id.scope, id.name);
  }

  /** The path of a canonical identifier starts with '/', is kept verbatim, and trimming
      its '/' gives back the scope, type and name. */
  lemma CanonicalPath(scope: string, name: string)
    requires Verbatim(scope) && name != [] && '/' !in name && Verbatim(name)
    ensures var path := "/" + (scope + "/" + RoleDefinitionType + "/" + name);
      && path[0] == '/' && Verbatim(path)
      && Trimmed(path) == scope + "/" + RoleDefinitionType + "/" + name
  {
    var tail := scope + "/" + RoleDefinitionType + "/" + name;
    var path := "/" + tail;
    TypeIsPlain();
    assert Verbatim(path);
    assert TrimPrefix(path, "/") == tail;
    assert tail[|tail| - 1] == name[|name| - 1];
    assert name[|name| - 1] in name;
    assert !HasSuffix(tail, "/");
  }

  /** The base, then the path of a role definition, grouped either way. */
  lemma Reassociate(base: string, scope: string, typ: string, name: string)
    ensures base + "/" + (scope + "/" + typ + "/" + name) == base + "/" + scope + "/" + typ + "/" + name
  {
  }

  /** Parsing then rendering gives the scheme-and-host base followed by the trimmed path,
      less a final '/': the parser drops the rest of the URL and at most one '/' at each end
      of the path, and rendering drops the '/' an empty name leaves at the end. */
  lemma FormatAfterParse(input: string)
    requires ManagedHSMRoleDefinitionID(input).Ok?
    ensures var u := ParseRequestUri(input).value;
      ManagedHSMRoleDefinitionID(input).value.ID() == TrimSuffix(u.scheme + "://" + u.host + "/" + Trimmed(u.path), "/")
  {
    var u := ParseRequestUri(input).value;
    var id := ParseUrl(u).value;
    ParseUrlOk(u);
    var base := u.scheme + "://" + u.host;
    assert id.vaultBaseUrl == base + "/";
    assert TrimSuffix(id.vaultBaseUrl, "/") == base;
    Reassociate(base, id.scope, RoleDefinitionType, id.name);
  }

  /** A path that ends in "/RoleDefinition" after a scope without '/' has nothing left
      for the type once the name is cut off. */
  lemma TypeAsNameRejected(u: Url, scope: string)
    requires scope != [] && '/' !in scope
    requires u.path == "/" + (scope + "/" + RoleDefinitionType)
    ensures ParseUrl(u) == Err(NoTypeSeparator)
  {
    var p := scope + "/" + RoleDefinitionType;
    assert TrimPrefix(u.path, "/") == p;
    assert p[|p| - 1] == 'n';
    assert Trimmed(u.path) == p;
    TypeIsPlain();
    assert p == scope + ['/'] + RoleDefinitionType;
    LastIndexSeam(scope, '/', RoleDefinitionType);
  }

  /** ID() of an identifier with an empty name ends in "/RoleDefinition": the '/' before
      the empty name is trimmed away. */
  lemma IdWithEmptyName(scheme: string, host: string, scope: string)
    ensures ManagedHsmRoleDefinitionId(scheme + "://" + host + "/", scope, "").ID()
         == scheme + "://" + host + ("/" + (scope + "/" + RoleDefinitionType))
  {
    var id := ManagedHsmRoleDefinitionId(scheme + "://" + host + "/", scope, "");
    var base := scheme + "://" + host;
    assert TrimSuffix(id.vaultBaseUrl, "/") == base;
    var rendered := base + "/" + scope + "/" + RoleDefinitionType;
    assert base + "/" + scope + "/" + RoleDefinitionType + "/" + "" == rendered + "/";
    assert TrimSuffix(rendered + "/", "/") == rendered;
  }

  /** An empty name is accepted, but ID() then drops the '/' before it, and the rendered
      text no longer parses: the round trip needs a non-empty name. */
  lemma EmptyNameNotReparsed(scheme: string, host: string, scope: string)
    requires IsScheme(scheme) && Lower(scheme) == scheme
    requires PlainHost(host)
    requires scope != [] && '/' !in scope && Verbatim(scope)
    ensures var id := ManagedHsmRoleDefinitionId(scheme + "://" + host + "/", scope, "");
      && ManagedHSMRoleDefinitionID(scheme + "://" + host + ("/" + (scope + "/" + RoleDefinitionType + "/") + "/")) == Ok(id)
      && ManagedHSMRoleDefinitionID(id.ID()) == Err(NoTypeSeparator)
  {
    TypeIsPlain();
    PlainHostParts(host);
    var tail := scope + "/" + RoleDefinitionType + "/";
    var path := "/" + tail + "/";
    assert path[0] == '/' && Verbatim(path);
    ParseSchemeHostPath(scheme, host, path);
    TrimmedOnce(tail);
    assert tail == scope + "/" + RoleDefinitionType + "/" + "";
    ParseUrlOfShape(Url(scheme, host, path), scope, "");
    var path2 := "/" + (scope + "/" + RoleDefinitionType);
    assert path2[0] == '/' && Verbatim(path2);
    ParseSchemeHostPath(scheme, host, path2);
    IdWithEmptyName(scheme, host, scope);
    TypeAsNameRejected(Url(scheme, host, path2), scope);
  }

  /** With a scope that itself ends in "/RoleDefinition" and an empty name, ID() renders the
      same text as the identifier whose scope is one segment shorter and whose name is
      "RoleDefinition", and that text parses back to the other identifier. */
  lemma EmptyNameReparsedElsewhere(scheme: string, host: string, s: string)
    requires IsScheme(scheme) && Lower(scheme) == scheme && PlainHost(host)
    requires s != [] && '/' !in s && Verbatim(s)
    ensures var base := scheme + "://" + host + "/";
      var empty := ManagedHsmRoleDefinitionId(base, s + "/" + RoleDefinitionType, "");
      var other := ManagedHsmRoleDefinitionId(base, s, RoleDefinitionType);
      && empty.ID() == other.ID()
      && ManagedHSMRoleDefinitionID(empty.ID()) == Ok(other)
      && other != empty
  {
    TypeIsPlain();
    var b := scheme + "://" + host;
    var base := b + "/";
    var empty := ManagedHsmRoleDefinitionId(base, s + "/" + RoleDefinitionType, "");
    var other := ManagedHsmRoleDefinitionId(base, s, RoleDefinitionType);
    assert TrimSuffix(base, "/") == b;
    var text := b + "/" + s + "/" + RoleDefinitionType + "/" + RoleDefinitionType;
    assert b + "/" + (s + "/" + RoleDefinitionType) + "/" + RoleDefinitionType + "/" + "" == text + "/";
    assert TrimSuffix(text + "/", "/") == text;
    assert text[|text| - 1] == 'n';
    assert !HasSuffix(text, "/");
    assert empty.ID() == other.ID();
    assert |other.scope| < |empty.scope|;
    RoundTrip(other, scheme, host);
  }

  /** "*" is a valid request URI with the path "*": it is refused for having no '/'
      before a name, not as an invalid URI. */
  lemma StarRejected()
    ensures ManagedHSMRoleDefinitionID("*") == Err(NoNameSeparator)
  {
    StarIsPath();
    var star := "*";
    assert star[0] != '/' && star[|star| - 1] != '/';
    assert !("/" <= star) && !HasSuffix(star, "/");
    assert Trimmed(star) == star;
    assert LastIndex("*", '/') == -1;
  }
}
