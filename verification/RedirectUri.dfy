// Redirect-URI matching and the resource-to-product gate of
// src/handlers/oauth2.rs.  URL parsing is a parameter: every statement below
// holds for any parser.

module RedirectUri {
  import opened Prelude

  datatype Url = Url(scheme: string, host: Option<string>, port: Option<nat>, path: string)

  type Parser = string -> Option<Url>

  predicate IsLoopback(u: Url) {
    u.scheme == "http" && (u.host == Some("localhost") || u.host == Some("127.0.0.1"))
  }

  /** One registered URI admits one requested URI. */
  predicate Admits(parse: Parser, registered: string, requested: string) {
    match parse(requested)
    case None => false
    case Some(req) =>
      if IsLoopback(req) then
        match parse(registered)
        case None => false
        case Some(reg) => IsLoopback(reg) && reg.path == req.path
      else
        req.scheme == "https" && registered == requested
  }

  predicate Allowed(parse: Parser, registered: seq<string>, requested: string) {
    exists i :: 0 <= i < |registered| && Admits(parse, registered[i], requested)
  }

  /** The check `register` applies to every redirect URI it stores. */
  predicate Registrable(parse: Parser, uri: string) {
    var u := parse(uri);
    u.Some? && (u.value.scheme == "https" || IsLoopback(u.value))
  }

  method RedirectUriAllowed(parse: Parser, registered: seq<string>, requested: string) returns (ok: bool)
    ensures ok <==> Allowed(parse, registered, requested)
  {
    var req := parse(requested);
    if req.None? {
      return false;
    }
    var isLoopback := IsLoopback(req.value);
    for i := 0 to |registered|
      invariant forall j :: 0 <= j < i ==> !Admits(parse, registered[j], requested)
    {
      if isLoopback {
        var reg := parse(registered[i]);
        if reg.Some? && IsLoopback(reg.value) && reg.value.path == req.value.path {
          assert Admits(parse, registered[i], requested);
          return true;
        }
      } else if req.value.scheme == "https" && registered[i] == requested {
        assert Admits(parse, registered[i], requested);
        return true;
      }
    }
    return false;
  }

  /**
   * What the token endpoint accepts against the URI stored with the code, the
   * authorization endpoint would have accepted against the client's own list.
   */
  lemma AllowedThroughStored(parse: Parser, registered: seq<string>, stored: string, requested: string)
    requires Allowed(parse, registered, stored)
    requires Allowed(parse, [stored], requested)
    ensures Allowed(parse, registered, requested)
  {
    var i :| 0 <= i < |registered| && Admits(parse, registered[i], stored);
    var k :| 0 <= k < |[stored]| && Admits(parse, [stored][k], requested);
    assert Admits(parse, registered[i], requested);
  }

  /** Registration stores exactly the URIs that admit themselves. */
  lemma RegistrableIffSelfAdmitting(parse: Parser, uri: string)
    ensures Registrable(parse, uri) <==> Allowed(parse, [uri], uri)
  {
    assert [uri][0] == uri;
    if Registrable(parse, uri) {
      assert Admits(parse, [uri][0], uri);
    }
  }

  /** Nothing that fails the registration check is ever allowed, for any stored list. */
  lemma AllowedIsRegistrable(parse: Parser, registered: seq<string>, requested: string)
    requires Allowed(parse, registered, requested)
    ensures Registrable(parse, requested)
  {
    var i :| 0 <= i < |registered| && Admits(parse, registered[i], requested);
  }

  /** Section 7.3 of RFC 8252: a loopback request is judged by its path alone, never by its port. */
  lemma LoopbackPortIgnored(parse: Parser, registered: seq<string>, a: string, b: string)
    requires parse(a).Some? && parse(b).Some?
    requires IsLoopback(parse(a).value) && IsLoopback(parse(b).value)
    requires parse(a).value.path == parse(b).value.path
    ensures Allowed(parse, registered, a) <==> Allowed(parse, registered, b)
  {
    forall i | 0 <= i < |registered|
      ensures Admits(parse, registered[i], a) <==> Admits(parse, registered[i], b)
    {
    }
  }

  // ── Product gate ──────────────────────────────────────────────────────────

  function LowerChar(c: char): char {
    if 'A' <= c <= 'Z' then c - 'A' + 'a' else c
  }

  /** Host names of parsed URLs are ASCII, so lower-casing is the ASCII one. */
  function Lower(s: string): (r: string)
    ensures |r| == |s|
    ensures forall i :: 0 <= i < |s| ==> r[i] == LowerChar(s[i])
  {
    seq(|s|, i requires 0 <= i < |s| => LowerChar(s[i]))
  }

  datatype Gate = Gate(product: string, scope: string)

  function ResourceToProductGate(parse: Parser, resource: string): (gate: Option<Gate>)
    ensures gate.Some? <==>
            parse(resource).Some? &&
            var u := parse(resource).value;
            (u.path in {"/cunav/mcp", "/togra/mcp", "/mcp"} ||
             Contains(Lower(if u.host.Some? then u.host.value else ""), "cunav"))
    ensures gate.Some? ==> gate.value in {Gate("cunav", "cunav:tools"), Gate("obair", "obair:tools"),
                                          Gate("comad", "dam:tools"), Gate("tack", "tack:tools"),
                                          Gate("collection", "collection:tools")}
  {
    var parsed := parse(resource);
    if parsed.None? then None else
    var host := Lower(if parsed.value.host.Some? then parsed.value.host.value else "");
    var port := if parsed.value.port.Some? then parsed.value.port.value else 0;
    var path := parsed.value.path;
    if path == "/cunav/mcp" || Contains(host, "cunav") then
      Some(Gate("cunav", "cunav:tools"))
    else if path == "/togra/mcp" then
      Some(Gate("obair", "obair:tools"))
    else if path == "/mcp" then
      if Contains(host, "comad") || Contains(host, "dam") || port == 8080 then
        Some(Gate("comad", "dam:tools"))
      else if Contains(host, "tack") then
        Some(Gate("tack", "tack:tools"))
      else if Contains(host, "collection") || port == 8087 then
        Some(Gate("collection", "collection:tools"))
      else
        Some(Gate("obair", "obair:tools"))
    else
      None
  }

  /** A gate names its product: no two products share a scope and no product has two. */
  lemma GateScopeDeterminesProduct(parse: Parser, r1: string, r2: string)
    requires ResourceToProductGate(parse, r1).Some? && ResourceToProductGate(parse, r2).Some?
    ensures ResourceToProductGate(parse, r1).value.product == ResourceToProductGate(parse, r2).value.product
            <==> ResourceToProductGate(parse, r1).value.scope == ResourceToProductGate(parse, r2).value.scope
  {
  }
}
