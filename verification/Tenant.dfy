/** Which tenant a request is served as (authpole.go, and the selector reads of the handlers under pkg/api). */
module Tenant {
  import opened Wrappers
  import opened Text
  import opened Minting

  // --- pinning the tenant ---

  /** url.Values and http.Header, header names in canonical form. */
  type Values = map<string, seq<string>>

  /** The first value, or "" when there is none. */
  function First(v: Values, name: string): string {
    if name in v && v[name] != [] then v[name][0] else ""
  }

  const ORG_HEADER := "X-Organization-Id"
  const TENANT_HEADER := "X-Tenant-Id"

  datatype Reads = Reads(query: Values, header: Values, form: Values)

  class Request {
    var query: Values
    var header: Values
    var form: Values       // the POST body

    constructor (query: Values, header: Values, form: Values)
      ensures this.query == query && this.header == header && this.form == form
    {
      this.query, this.header, this.form := query, header, form;
    }

    ghost function Seen(): Reads
      reads this
    {
      Reads(query, header, form)
    }

    /** withResolvedTenant: whatever selectors the caller sent are replaced by the resolver's tenant. */
    method WithResolvedTenant(tenant: string, requireTenant: bool) returns (served: bool)
      modifies this
      ensures served <==> tenant != "" || !requireTenant
      ensures Seen() == if served then Pinned(old(Seen()), tenant) else old(Seen())
    {
      if tenant == "" && requireTenant {
        return false;
      }
      DropBoth(query, "organization", "tenant");
      query := query - {"organization"};
      query := query - {"tenant"};
      if tenant != "" {
        query := query["organization" := [tenant]];
      }
      DropBoth(header, ORG_HEADER, TENANT_HEADER);
      header := header - {ORG_HEADER};
      header := header - {TENANT_HEADER};
      if tenant != "" {
        header := header[ORG_HEADER := [tenant]];
      }
      return true;
    }
  }

  function PinnedValues(v: Values, name: string, other: string, tenant: string): Values {
    if tenant == "" then v - {name, other} else (v - {name, other})[name := [tenant]]
  }

  function Pinned(r: Reads, tenant: string): Reads {
    Reads(PinnedValues(r.query, "organization", "tenant", tenant), PinnedValues(r.header, ORG_HEADER, TENANT_HEADER, tenant), r.form)
  }

  lemma DropBoth(v: Values, name: string, other: string)
    ensures (v - {name}) - {other} == v - {name, other}
  {
  }

  function OrDefault(tenant: string): string {
    if tenant == "" then "default" else tenant
  }

  /** Discovery, JWKS, authorize and the trust bundle. */
  function QueryTenant(r: Reads): string {
    OrDefault(Either(First(r.query, "organization"), First(r.query, "tenant")))
  }

  /** Admin authentication, users, teams, roles, workloads and token validation. */
  function HeaderTenant(r: Reads): string {
    OrDefault(Either(First(r.header, ORG_HEADER), First(r.header, TENANT_HEADER)))
  }

  /** The organization list's own admin check reads one header only. */
  function OneHeaderTenant(r: Reads): string {
    OrDefault(First(r.header, ORG_HEADER))
  }

  /** Applications and identity providers: headers first, then the query. */
  function HeaderThenQueryTenant(r: Reads): string {
    OrDefault(Either(Either(First(r.header, ORG_HEADER), First(r.header, TENANT_HEADER)),
                     Either(First(r.query, "organization"), First(r.query, "tenant"))))
  }

  /** http.Request.FormValue: a POST body value beats a query value, even an empty one. */
  function FormValue(r: Reads, name: string): string {
    if name in r.form && r.form[name] != [] then r.form[name][0] else First(r.query, name)
  }

  /** The token endpoint. */
  function FormTenant(r: Reads): string {
    OrDefault(Either(FormValue(r, "organization"), FormValue(r, "tenant")))
  }

  /** originAllowed; "" means no tenant, so no origin is allowed. */
  function OriginTenant(r: Reads): string {
    Either(Either(First(r.header, ORG_HEADER), First(r.header, TENANT_HEADER)),
           Either(First(r.query, "organization"), FormValue(r, "organization")))
  }

  predicate HasValue(v: Values, name: string) {
    name in v && v[name] != []
  }

  /**
   * The POST body is not stripped and beats the pinned query: a body organization is served instead of the resolver's tenant,
   * and a blank one hides it, so that the body's tenant or else "default" is served. This says when that is the same tenant.
   */
  predicate BodyAgrees(form: Values, tenant: string) {
    if HasValue(form, "organization") && form["organization"][0] != "" then form["organization"][0] == OrDefault(tenant)
    else if tenant != "" && !HasValue(form, "organization") then true
    else if HasValue(form, "tenant") && form["tenant"][0] != "" then form["tenant"][0] == OrDefault(tenant)
    else tenant == "" || tenant == "default"
  }

  /** Of the parameters a handler may read, only the selectors are touched. */
  ghost predicate OthersKept(before: Values, after: Values, name: string, other: string) {
    forall k | k != name && k != other :: (k in after <==> k in before) && (k in before ==> after[k] == before[k])
  }

  /**
   * Whatever selectors the caller sent, the query- and header-reading handlers serve the resolver's tenant, and the token
   * endpoint does exactly when the body agrees. (The exchange ignores the tenant named there.) Nothing else changes.
   */
  lemma HandlersServeResolvedTenant(r: Reads, tenant: string)
    ensures var served := if tenant != "" then tenant else "default";
            && QueryTenant(Pinned(r, tenant)) == served
            && HeaderTenant(Pinned(r, tenant)) == served
            && OneHeaderTenant(Pinned(r, tenant)) == served
            && HeaderThenQueryTenant(Pinned(r, tenant)) == served
            && (FormTenant(Pinned(r, tenant)) == served <==> BodyAgrees(r.form, tenant))
    ensures tenant != "" ==> OriginTenant(Pinned(r, tenant)) == tenant
    ensures OthersKept(r.query, Pinned(r, tenant).query, "organization", "tenant")
    ensures OthersKept(r.header, Pinned(r, tenant).header, "X-Organization-Id", "X-Tenant-Id")
    ensures Pinned(r, tenant).form == r.form
  {
    var p := Pinned(r, tenant);
    assert First(p.query, "tenant") == "" && First(p.query, "organization") == tenant;
    assert First(p.header, TENANT_HEADER) == "" && First(p.header, ORG_HEADER) == tenant;
  }

  /** Without a resolved tenant, a body selector decides whose registered origins are consulted. */
  lemma UnresolvedOriginFollowsBody(r: Reads)
    ensures OriginTenant(Pinned(r, "")) == if HasValue(r.form, "organization") then r.form["organization"][0] else ""
  {
    var p := Pinned(r, "");
    assert First(p.query, "organization") == "" && First(p.header, ORG_HEADER) == "" && First(p.header, TENANT_HEADER) == "";
  }

  /** Values whose selector is the first of the given ones, under one of its two names. */
  predicate Selects(v: Values, name: string, other: string, tenant: string) {
    || (HasValue(v, name) && v[name][0] == tenant)
    || ((!HasValue(v, name) || v[name][0] == "") && HasValue(v, other) && v[other][0] == tenant)
  }

  /** Left unpinned, the handlers take the first value of either name, headers before the query, and a form before the query. */
  lemma EitherNameSelects(r: Reads, tenant: string)
    requires tenant != ""
    ensures Selects(r.query, "organization", "tenant", tenant) ==> QueryTenant(r) == tenant
    ensures Selects(r.header, "X-Organization-Id", "X-Tenant-Id", tenant) ==>
              HeaderTenant(r) == tenant && HeaderThenQueryTenant(r) == tenant && OriginTenant(r) == tenant
    ensures r.header == map[] && Selects(r.query, "organization", "tenant", tenant) ==> HeaderThenQueryTenant(r) == tenant
    ensures r.query == map[] && Selects(r.form, "organization", "tenant", tenant) ==> FormTenant(r) == tenant
    ensures r.form == map[] && Selects(r.query, "organization", "tenant", tenant) ==> FormTenant(r) == tenant
    ensures HasValue(r.form, "organization") && r.form["organization"][0] == tenant ==> FormTenant(r) == tenant
  {
  }

  // --- tenants from host names ---

  function IndexOf(s: string, c: char): (i: int)
    ensures i == -1 ==> c !in s
    ensures i != -1 ==> 0 <= i < |s| && s[i] == c && c !in s[..i]
  {
    if s == "" then -1
    else if s[0] == c then 0
    else
      var i := IndexOf(s[1..], c);
      if i == -1 then -1
      else
        assert s[..i + 1] == [s[0]] + s[1..][..i];
        i + 1
  }

  function LastIndexOf(s: string, c: char): (i: int)
    ensures i == -1 ==> c !in s
    ensures i != -1 ==> 0 <= i < |s| && s[i] == c && c !in s[i + 1..]
  {
    if s == "" then -1
    else if s[|s| - 1] == c then |s| - 1
    else
      var i := LastIndexOf(s[..|s| - 1], c);
      if i == -1 then -1
      else
        assert s[i + 1..] == s[..|s| - 1][i + 1..] + [s[|s| - 1]];
        i
  }

  /** The host part of net.SplitHostPort; None where it reports an error. */
  function SplitHostPort(hostport: string): Option<string> {
    var i := LastIndexOf(hostport, ':');
    if i == -1 then None
    else if hostport[0] == '[' then
      var end := IndexOf(hostport, ']');
      if end == -1 || end + 1 != i || '[' in hostport[1..] || ']' in hostport[end + 1..] then None
      else Some(hostport[1..end])
    else if ':' in hostport[..i] || '[' in hostport || ']' in hostport then None
    else Some(hostport[..i])
  }

  predicate Bracketed(s: string) {
    '[' in s || ']' in s
  }

  predicate PortText(port: string) {
    ':' !in port && !Bracketed(port)
  }

  lemma PlainPairSplits(host: string, port: string)
    requires PortText(port) && !Bracketed(host) && ':' !in host
    ensures SplitHostPort(host + ":" + port) == Some(host)
  {
    var s := host + ":" + port;
    LastColon(host, port);
    assert s[..|host|] == host;
    assert s[0] == if host == "" then ':' else host[0];
    assert forall c | c in s :: c in host || c == ':' || c in port;
  }

  lemma BracketedPairSplits(host: string, port: string)
    requires PortText(port) && !Bracketed(host)
    ensures SplitHostPort("[" + host + "]:" + port) == Some(host)
  {
    var s, front := "[" + host + "]:" + port, "[" + host + "]";
    assert s == front + ":" + port;
    LastColon(front, port);
    assert s[|host| + 1] == ']' && s[1..|host| + 1] == host;
    assert s[1..] == host + "]:" + port && s[|host| + 2..] == ":" + port;
    assert IndexOf(s, ']') == |host| + 1 by {
      assert forall i | 0 <= i <= |host| :: s[i] == if i == 0 then '[' else host[i - 1];
    }
  }

  lemma SplitFindsPair(s: string, host: string) returns (port: string)
    requires SplitHostPort(s) == Some(host)
    ensures PortText(port) && !Bracketed(host) && ((s == host + ":" + port && ':' !in host) || s == "[" + host + "]:" + port)
  {
    var i := LastIndexOf(s, ':');
    port := s[i + 1..];
    assert s == s[..i] + ":" + port;
    if s[0] == '[' {
      var end := IndexOf(s, ']');
      assert s[end + 1..] == ":" + port && s[1..] == host + "]:" + port;
    }
  }

  /** A host and a port are found in "host:port" without further colons, or in "[host]:port", and without further brackets. */
  lemma SplitHostPortIff(s: string, host: string)
    ensures SplitHostPort(s) == Some(host) <==>
              exists port :: PortText(port) && !Bracketed(host) && ((s == host + ":" + port && ':' !in host) || s == "[" + host + "]:" + port)
  {
    if SplitHostPort(s) == Some(host) {
      var port := SplitFindsPair(s, host);
    }
    if port :| PortText(port) && !Bracketed(host) && ((s == host + ":" + port && ':' !in host) || s == "[" + host + "]:" + port) {
      if s == "[" + host + "]:" + port {
        BracketedPairSplits(host, port);
      } else {
        PlainPairSplits(host, port);
      }
    }
  }

  function TrimDot(s: string): string {
    if s != "" && s[0] == '.' then s[1..] else s
  }

  function NormalBase(baseDomain: string): string {
    ToLower(TrimDot(TrimSpace(baseDomain)))
  }

  function NormalHost(host: string): string {
    ToLower(TrimSpace(match SplitHostPort(host) { case Some(h) => h case None => host }))
  }

  predicate Reserved(reserved: seq<string>, name: string) {
    exists r :: r in reserved && ToLower(TrimSpace(r)) == name
  }

  method ReservedLabels(reserved: seq<string>) returns (blocked: set<string>)
    ensures forall l :: l in blocked <==> Reserved(reserved, l)
  {
    blocked := {};
    for i := 0 to |reserved|
      invariant forall l :: l in blocked <==> Reserved(reserved[..i], l)
    {
      assert reserved[..i + 1] == reserved[..i] + [reserved[i]];
      blocked := blocked + {ToLower(TrimSpace(reserved[i]))};
    }
    assert reserved[..|reserved|] == reserved;
  }

  /** The label of a host name directly under a base domain, if there is one and it is not reserved. */
  function LabelUnder(base: string, reserved: seq<string>, name: string): string {
    if base == "" || !HasSuffix(name, "." + base) then ""
    else
      var first := name[..|name| - |"." + base|];
      if '.' in first || Reserved(reserved, first) then "" else first
  }

  function HostTenant(baseDomain: string, reserved: seq<string>, host: string): string {
    LabelUnder(NormalBase(baseDomain), reserved, NormalHost(host))
  }

  method ExtractLabel(base: string, reserved: seq<string>, name: string) returns (tenant: string)
    ensures tenant == LabelUnder(base, reserved, name)
  {
    var blocked := ReservedLabels(reserved);
    if base == "" || !HasSuffix(name, "." + base) {
      return "";
    }
    var first := name[..|name| - |"." + base|];
    if first == "" || '.' in first || first in blocked {
      return "";
    }
    return first;
  }

  /** The resolver TenantFromHost builds, on one host name. */
  method TenantFromHost(baseDomain: string, reserved: seq<string>, host: string) returns (tenant: string)
    ensures tenant == HostTenant(baseDomain, reserved, host)
  {
    var base := TrimSpace(baseDomain);
    if HasPrefix(base, ".") {
      base := base[1..];
    }
    base := ToLower(base);
    var name := host;
    var split := SplitHostPort(name);
    if split.Some? {
      name := split.value;
    }
    name := ToLower(TrimSpace(name));
    tenant := ExtractLabel(base, reserved, name);
  }

  lemma LabelUnderIsLabel(base: string, reserved: seq<string>, name: string, tenant: string)
    requires tenant != ""
    ensures LabelUnder(base, reserved, name) == tenant <==>
              base != "" && name == tenant + "." + base && '.' !in tenant && !Reserved(reserved, tenant)
  {
    if name == tenant + "." + base {
      assert name[|tenant|..] == "." + base;
      assert name[..|tenant|] == tenant;
    }
    if HasSuffix(name, "." + base) {
      assert name == name[..|name| - |"." + base|] + "." + base;
    }
  }

  /** A host is a tenant's exactly when it is that one unreserved label, a dot, and the base domain. */
  lemma HostTenantIsLabel(baseDomain: string, reserved: seq<string>, host: string, tenant: string)
    requires tenant != ""
    ensures HostTenant(baseDomain, reserved, host) == tenant <==>
              && NormalBase(baseDomain) != "" && NormalHost(host) == tenant + "." + NormalBase(baseDomain)
              && '.' !in tenant && !Reserved(reserved, tenant)
  {
    LabelUnderIsLabel(NormalBase(baseDomain), reserved, NormalHost(host), tenant);
  }

  /** Text that a host name is made of: nothing SplitHostPort or TrimSpace would react to. */
  predicate PlainHost(s: string) {
    forall i | 0 <= i < |s| :: s[i] !in ":[]" && !IsSpace(s[i])
  }

  lemma {:induction false} LastColon(host: string, port: string)
    requires ':' !in port
    ensures LastIndexOf(host + ":" + port, ':') == |host|
  {
    var both := host + ":" + port;
    if port == "" {
      assert both[|both| - 1] == ':';
    } else {
      assert both[|both| - 1] == port[|port| - 1];
      assert both[..|both| - 1] == host + ":" + port[..|port| - 1];
      LastColon(host, port[..|port| - 1]);
    }
  }

  lemma PlainHostSplits(host: string, port: string)
    requires PlainHost(host) && ':' !in port && '[' !in port && ']' !in port
    ensures SplitHostPort(host) == None && (host != "" ==> SplitHostPort(host + ":" + port) == Some(host))
  {
    assert LastIndexOf(host, ':') == -1;
    var both := host + ":" + port;
    LastColon(host, port);
    assert both[..|host|] == host;
    assert '[' !in both && ']' !in both;
  }

  lemma PlainHostStays(host: string, port: string)
    requires PlainHost(host) && ':' !in port && '[' !in port && ']' !in port
    ensures NormalHost(host) == ToLower(host) && (host != "" ==> NormalHost(host + ":" + port) == ToLower(host))
  {
    PlainHostSplits(host, port);
    TrimmedIsFixed(host);
  }

  lemma LowerDots(a: string, b: string)
    ensures ToLower(a + "." + b) == ToLower(a) + "." + ToLower(b)
    ensures '.' in ToLower(a) <==> '.' in a
    ensures ToLower(ToLower(b)) == ToLower(b)
  {
    if '.' in ToLower(a) {
      var i :| 0 <= i < |a| && ToLower(a)[i] == '.';
      assert a[i] == '.';
    }
    if '.' in a {
      var i :| 0 <= i < |a| && a[i] == '.';
      assert ToLower(a)[i] == '.';
    }
  }

  lemma LabelRoundTrip(baseDomain: string, reserved: seq<string>, tenant: string, port: string)
    requires NormalBase(baseDomain) != "" && PlainHost(NormalBase(baseDomain)) && tenant != "" && PlainHost(tenant)
    requires ':' !in port && '[' !in port && ']' !in port
    ensures var host := tenant + "." + NormalBase(baseDomain);
            && (HostTenant(baseDomain, reserved, host) == tenant <==> ToLower(tenant) == tenant && '.' !in tenant && !Reserved(reserved, tenant))
            && HostTenant(baseDomain, reserved, host + ":" + port) == HostTenant(baseDomain, reserved, host)
  {
    var base := NormalBase(baseDomain);
    var host := tenant + "." + base;
    LowerHost(tenant, TrimDot(TrimSpace(baseDomain)));
    PlainHostStays(host, port);
    LowerLabel(base, reserved, tenant);
  }

  lemma LowerHost(tenant: string, base: string)
    ensures ToLower(tenant + "." + ToLower(base)) == ToLower(tenant) + "." + ToLower(base)
  {
    LowerDots(tenant, ToLower(base));
    LowerDots(tenant, base);
  }

  lemma LowerLabel(base: string, reserved: seq<string>, tenant: string)
    requires base != "" && tenant != ""
    ensures LabelUnder(base, reserved, ToLower(tenant) + "." + base) == tenant <==>
              ToLower(tenant) == tenant && '.' !in tenant && !Reserved(reserved, tenant)
  {
    LabelUnderIsLabel(base, reserved, ToLower(tenant) + "." + base, tenant);
    if ToLower(tenant) + "." + base == tenant + "." + base {
      assert ToLower(tenant) + "." + base == ToLower(tenant) + ("." + base);
      assert tenant + "." + base == tenant + ("." + base);
      CancelSuffix(ToLower(tenant), tenant, "." + base);
    }
  }

  /** The host of an https URL that is nothing but scheme and host. */
  function HostOf(url: string): string {
    if HasPrefix(url, "https://") then url[8..] else url
  }

  lemma IssuerHost(base: string, tenant: string)
    requires tenant != ""
    ensures HostOf(HostIssuer("https://", "." + base)(tenant)) == tenant + "." + base
  {
    var url := HostIssuer("https://", "." + base)(tenant);
    assert url == "https://" + (tenant + "." + base);
    assert url[..8] == "https://" && url[8..] == tenant + "." + base;
  }

  /**
   * TenantFromHost inverts the host of IssuerFromHostPattern("https://%s.<base>"), with or without a port, for exactly the
   * lower-case, dot-free, unreserved tenants.
   */
  lemma HostRoundTrip(baseDomain: string, reserved: seq<string>, tenant: string, port: string)
    requires NormalBase(baseDomain) != "" && PlainHost(NormalBase(baseDomain)) && tenant != "" && PlainHost(tenant)
    requires ':' !in port && '[' !in port && ']' !in port
    ensures var host := HostOf(HostIssuer("https://", "." + NormalBase(baseDomain))(tenant));
            && (HostTenant(baseDomain, reserved, host) == tenant <==> ToLower(tenant) == tenant && '.' !in tenant && !Reserved(reserved, tenant))
            && HostTenant(baseDomain, reserved, host + ":" + port) == HostTenant(baseDomain, reserved, host)
  {
    IssuerHost(NormalBase(baseDomain), tenant);
    LabelRoundTrip(baseDomain, reserved, tenant, port);
  }
}
