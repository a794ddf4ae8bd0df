/** Upstream providers: what a tenant has enabled, resolving one, and the calls to it (pkg/idp/idp_engine.go). */
module Providers {
  import opened Wrappers
  import opened Text
  import opened Models
  import opened Storage
  import opened Presets
  import opened Sorting
  import opened Subject
  import Keys

  /** A stored provider record; None when its JSON does not parse. */
  type ProviderRecord = Option<IdentityProvider>

  function ProviderKey(org: string, id: string): string {
    Keys.RecordKey(org, Keys.IDPs, id).Render()
  }

  lemma ProviderKeyText(org: string, id: string)
    ensures ProviderKey(org, id) == "organizations/" + org + "/idps/" + id + ".json"
    ensures HasPrefix(ProviderKey(org, id), ProviderPrefix(org))
  {
    assert ProviderKey(org, id) == "organizations/" + (org + "/" + ("idps/" + (id + ".json")));
    assert "organizations/" + org + "/idps/" + id + ".json" == ProviderPrefix(org) + (id + ".json");
    assert org + "/idps/" == org + "/" + "idps/";
  }

  function ProviderPrefix(org: string): string {
    "organizations/" + org + "/idps/"
  }

  // --- what a tenant has enabled ---

  /** The id a record offers to choose from. */
  function Offered(r: ProviderRecord): seq<string> {
    if r.Some? && r.value.enabled && r.value.id != "" then [r.value.id] else []
  }

  function OfferedBy(records: map<string, Versioned<ProviderRecord>>, order: seq<string>): seq<string>
    requires forall n | n in order :: n in records
  {
    if order == [] then []
    else OfferedBy(records, order[..|order| - 1]) + Offered(records[order[|order| - 1]].data)
  }

  /** The tenant's records, each once, in some order. */
  ghost predicate Enumerates(records: map<string, Versioned<ProviderRecord>>, org: string, order: seq<string>) {
    && (forall n :: n in order <==> n in records && HasPrefix(n, ProviderPrefix(org)))
    && (forall i, j | 0 <= i < j < |order| :: order[i] != order[j])
  }

  /** The sorted ids a tenant's records offer, in whatever order storage lists them. */
  ghost predicate EnabledAre(records: map<string, Versioned<ProviderRecord>>, org: string, ids: seq<string>) {
    exists order :: Enumerates(records, org, order) && ids == Sorted(OfferedBy(records, order))
  }

  lemma {:induction false} OfferedTogether(records: map<string, Versioned<ProviderRecord>>, a: seq<string>, b: seq<string>)
    requires forall n | n in a + b :: n in records
    ensures OfferedBy(records, a + b) == OfferedBy(records, a) + OfferedBy(records, b)
  {
    if b == [] {
      assert a + b == a;
    } else {
      var front, last := b[..|b| - 1], b[|b| - 1];
      assert b == front + [last];
      assert (a + b)[..|a + b| - 1] == a + front;
      assert forall n | n in a + front :: n in a + b;
      OfferedTogether(records, a, front);
    }
  }

  lemma OfferedAmong(records: map<string, Versioned<ProviderRecord>>, before: seq<string>, n: string, after: seq<string>)
    requires forall x | x in before + [n] + after :: x in records
    ensures multiset(OfferedBy(records, before + [n] + after)) == multiset(OfferedBy(records, before + after)) + multiset(Offered(records[n].data))
  {
    assert forall x | x in before + after :: x in before + [n] + after;
    OfferedTogether(records, before + [n], after);
    OfferedTogether(records, before, after);
    assert OfferedBy(records, before + [n]) == OfferedBy(records, before) + Offered(records[n].data) by {
      assert (before + [n])[..|before|] == before;
    }
  }

  lemma TakeOut(front: seq<string>, n: string, b: seq<string>) returns (before: seq<string>, after: seq<string>)
    requires multiset(front + [n]) == multiset(b)
    ensures b == before + [n] + after && multiset(before + after) == multiset(front)
  {
    assert n in multiset(front + [n]);
    assert n in multiset(b);
    var i :| 0 <= i < |b| && b[i] == n;
    before, after := b[..i], b[i + 1..];
    assert b == before + [n] + after;
    assert multiset(b) == multiset(before) + multiset{n} + multiset(after);
    assert multiset(front) == multiset(front + [n]) - multiset{n};
    assert multiset(before + after) == multiset(b) - multiset{n};
  }

  /** Two orders of the same records offer the same ids. */
  lemma {:induction false} OrdersOfferTheSame(records: map<string, Versioned<ProviderRecord>>, a: seq<string>, b: seq<string>)
    requires multiset(a) == multiset(b) && (forall n | n in a :: n in records) && (forall n | n in b :: n in records)
    ensures multiset(OfferedBy(records, a)) == multiset(OfferedBy(records, b))
  {
    if a == [] {
      assert |multiset(b)| == 0;
    } else {
      var front, last := a[..|a| - 1], a[|a| - 1];
      assert a == front + [last];
      var before, after := TakeOut(front, last, b);
      assert forall n | n in before + after :: n in b;
      OrdersOfferTheSame(records, front, before + after);
      OfferedAmong(records, before, last, after);
    }
  }

  lemma {:induction false} OnceEach(a: seq<string>, b: seq<string>)
    requires forall n :: n in a <==> n in b
    requires forall i, j | 0 <= i < j < |a| :: a[i] != a[j]
    requires forall i, j | 0 <= i < j < |b| :: b[i] != b[j]
    ensures multiset(a) == multiset(b)
  {
    forall x ensures multiset(a)[x] == multiset(b)[x] {
      CountedOnce(a, x);
      CountedOnce(b, x);
    }
  }

  lemma {:induction false} CountedOnce(a: seq<string>, x: string)
    requires forall i, j | 0 <= i < j < |a| :: a[i] != a[j]
    ensures multiset(a)[x] == if x in a then 1 else 0
  {
    if a != [] {
      assert a == [a[0]] + a[1..];
      CountedOnce(a[1..], x);
    }
  }

  /** What a tenant has enabled does not depend on the order storage lists it in. */
  lemma EnabledIgnoresOrder(records: map<string, Versioned<ProviderRecord>>, org: string, a: seq<string>, b: seq<string>)
    requires EnabledAre(records, org, a) && EnabledAre(records, org, b)
    ensures a == b && InOrder(a)
  {
    var x :| Enumerates(records, org, x) && a == Sorted(OfferedBy(records, x));
    var y :| Enumerates(records, org, y) && b == Sorted(OfferedBy(records, y));
    OnceEach(x, y);
    OrdersOfferTheSame(records, x, y);
    SortingIgnoresOrder(OfferedBy(records, x), OfferedBy(records, y));
  }

  // --- resolving one ---

  const ADMIN_CONSOLE := "admin_console"
  const DEFAULT_ORGANIZATION := "default"

  /** The operator's own credentials for the admin console, from the environment. */
  function PlatformProvider(id: string, env: map<string, string>): Option<IdentityProvider> {
    match id
    case "google" =>
      var clientID := FirstEnv(env, "AUTHPOLE_GOOGLE_CLIENT_ID", "GOOGLE_CLIENT_ID");
      if clientID == "" then None
      else Some(OfPlatform(id, "oidc", clientID, FirstEnv(env, "AUTHPOLE_GOOGLE_CLIENT_SECRET", "GOOGLE_CLIENT_SECRET"),
                           "https://accounts.google.com/o/oauth2/v2/auth", "https://oauth2.googleapis.com/token", ["openid", "profile", "email"]))
    case "github" =>
      var clientID := FirstEnv(env, "AUTHPOLE_GITHUB_CLIENT_ID", "GITHUB_CLIENT_ID");
      if clientID == "" then None
      else Some(OfPlatform(id, "oauth2", clientID, FirstEnv(env, "AUTHPOLE_GITHUB_CLIENT_SECRET", "GITHUB_CLIENT_SECRET"),
                           "https://github.com/login/oauth/authorize", "https://github.com/login/oauth/access_token", ["user:email", "read:user"]))
    case _ => None
  }

  function FirstEnv(env: map<string, string>, name: string, fallback: string): string {
    Either(if name in env then env[name] else "", if fallback in env then env[fallback] else "")
  }

  function OfPlatform(id: string, kind: string, clientID: string, secret: string, authorizeURL: string, tokenURL: string, scopes: seq<string>): IdentityProvider {
    IdentityProvider(id, kind, clientID, secret, authorizeURL, tokenURL, "", "", "", ClaimMapping("", "", "", "", "", "", ""), map[], scopes, true)
  }

  /**
   * There is a platform provider exactly for the two known ids, and only with a client id in the environment; its credentials
   * are those set for it, the program's own variables before the generic ones, and its endpoints are the preset's.
   */
  lemma PlatformProviderIff(id: string, env: map<string, string>)
    ensures PlatformProvider(id, env).Some? <==>
              || (id == "google" && (Setting(env, "AUTHPOLE_GOOGLE_CLIENT_ID") != "" || Setting(env, "GOOGLE_CLIENT_ID") != ""))
              || (id == "github" && (Setting(env, "AUTHPOLE_GITHUB_CLIENT_ID") != "" || Setting(env, "GITHUB_CLIENT_ID") != ""))
    ensures PlatformProvider("google", env).Some? ==>
              var p := PlatformProvider("google", env).value;
              && p.id == "google" && p.enabled && p.extraAuthParams == map[]
              && Preferred(p.clientID, Setting(env, "AUTHPOLE_GOOGLE_CLIENT_ID"), Setting(env, "GOOGLE_CLIENT_ID"))
              && Preferred(p.clientSecret, Setting(env, "AUTHPOLE_GOOGLE_CLIENT_SECRET"), Setting(env, "GOOGLE_CLIENT_SECRET"))
              && p.kind == GOOGLE.kind && p.authorizeURL == GOOGLE.authorizeURL && p.tokenURL == GOOGLE.tokenURL
              && forall scope :: scope in p.scopes <==> scope in GOOGLE.scopes
    ensures PlatformProvider("github", env).Some? ==>
              var p := PlatformProvider("github", env).value;
              && p.id == "github" && p.enabled && p.extraAuthParams == map[]
              && Preferred(p.clientID, Setting(env, "AUTHPOLE_GITHUB_CLIENT_ID"), Setting(env, "GITHUB_CLIENT_ID"))
              && Preferred(p.clientSecret, Setting(env, "AUTHPOLE_GITHUB_CLIENT_SECRET"), Setting(env, "GITHUB_CLIENT_SECRET"))
              && p.kind == GITHUB.kind && p.authorizeURL == GITHUB.authorizeURL && p.tokenURL == GITHUB.tokenURL
              && forall scope :: scope in p.scopes <==> scope in GITHUB.scopes
  {
    if id != "google" && id != "github" {
      assert PlatformProvider(id, env).None?;
    }
  }

  function Setting(env: map<string, string>, name: string): string {
    if name in env then env[name] else ""
  }

  predicate Preferred(chosen: string, first: string, second: string) {
    chosen == first != "" || (first == "" && chosen == second)
  }

  /** A record that is enabled and has a client id of its own rather than a placeholder. */
  predicate FilledIn(r: ProviderRecord) {
    && r.Some? && r.value.enabled && r.value.clientID != "" && r.value.clientID != "authpole_proxy"
    && !HasPrefix(r.value.clientID, "google_oauth_client_id") && !HasPrefix(r.value.clientID, "github_oauth_client_id")
  }

  /** The record stored for an organization under a provider id. */
  function RecordOf(records: map<string, Versioned<ProviderRecord>>, org: string, id: string): ProviderRecord {
    var key := "organizations/" + org + "/idps/" + id + ".json";
    if key in records then records[key].data else None
  }

  /** The provider an organization has under an id, if its record can be used. */
  function UsableFor(records: map<string, Versioned<ProviderRecord>>, org: string, id: string): Option<IdentityProvider> {
    if FilledIn(RecordOf(records, org, id)) then RecordOf(records, org, id) else None
  }

  class ProviderSource {
    const store: JayDBStorage<string, ProviderRecord>
    const env: map<string, string>
    const presets: Presets

    constructor (store: JayDBStorage<string, ProviderRecord>, env: map<string, string>)
      ensures this.store == store && this.env == env && presets == PRESETS
    {
      this.store, this.env, presets := store, env, PRESETS;
    }

    /**
     * enabledIDPIDs: the ids of the enabled records in order, however they are listed, but for the records whose reading
     * failed: those are passed over, so that a choice can look smaller than it is.
     */
    method EnabledIDPIDs(org: string) returns (ids: Option<seq<string>>, ghost lost: set<string>)
      modifies store`faults
      ensures store.faults >= old(store.faults) + |lost|
      ensures ids.None? ==> store.faults > old(store.faults)
      ensures ids.Some? ==> EnabledAre(store.records - lost, org, ids.value)
    {
      lost := {};
      var prefix := ProviderPrefix(org);
      var names := store.Names(n => HasPrefix(n, prefix));
      if names.Err? {
        return None, lost;
      }
      var todo, found := names.value, [];
      ghost var order: seq<string> := [];
      while todo != {}
        invariant forall n | n in names.value :: n in store.records
        invariant ReadSoFar(names.value, order, todo, lost) && store.faults >= old(store.faults) + |lost|
        invariant found == OfferedBy(store.records, order)
        decreases |todo|
      {
        var name :| name in todo;
        var offer, read := ReadOffer(name);
        if read {
          ReadsOneMore(names.value, order, todo, lost, name);
          OfferedNext(store.records, order, name);
          order := order + [name];
        } else {
          lost := lost + {name};
        }
        found, todo := found + offer, todo - {name};
      }
      OfferedWithout(store.records, lost, order);
      assert Enumerates(store.records - lost, org, order);
      return Some(Sorted(found)), lost;
    }

    /** One turn of that loop: the id a record offers, if it can be read. */
    method ReadOffer(name: string) returns (offer: seq<string>, ghost read: bool)
      requires name in store.records
      modifies store`faults
      ensures store.faults == old(store.faults) + if read then 0 else 1
      ensures offer == if read then Offered(store.records[name].data) else []
    {
      var rec, fault := store.Get(name);
      read := fault.NoFault?;
      if rec.Err? || rec.value.data.None? {
        return [], read;
      }
      var idp := rec.value.data.value;
      return if idp.enabled && idp.id != "" then [idp.id] else [], read;
    }

    /** What resolving a provider gives: `lost` says that a read failed. */
    ghost predicate Resolves(org: string, client: string, id: string, p: Option<IdentityProvider>, lost: bool)
      reads store`records
    {
      if client == "admin_console" then p == PlatformProvider(id, env)
      else
        var own, fallback := UsableFor(store.records, org, id), UsableFor(store.records, "default", id);
        && (p.Some? ==> p == own || p == fallback)
        && (!lost ==> p == if own.Some? then own else fallback)
    }

    /**
     * resolveUpstreamIDP: the admin console's providers come from the environment and nowhere else; any other client's is the
     * organization's own usable record, or else the default organization's under that id. A failing read counts as no record.
     */
    method ResolveUpstreamIDP(org: string, client: string, id: string)
      returns (p: Option<IdentityProvider>, ghost ownLost: bool, ghost defaultLost: bool)
      modifies store`faults
      ensures store.faults >= old(store.faults) && (ownLost || defaultLost ==> store.faults > old(store.faults))
      ensures client == "admin_console" ==> p == PlatformProvider(id, env) && store.faults == old(store.faults)
      ensures client != "admin_console" ==> p == Resolution(store.records, org, id, ownLost, defaultLost)
      ensures client != "admin_console" && p.Some? ==>
                && p.value.enabled && p.value.clientID != "" && p.value.clientID != "authpole_proxy"
                && !HasPrefix(p.value.clientID, "google_oauth_client_id") && !HasPrefix(p.value.clientID, "github_oauth_client_id")
                && (RecordOf(store.records, org, id) == p || RecordOf(store.records, "default", id) == p)
      ensures var own := RecordOf(store.records, org, id);
              client != "admin_console" && store.faults == old(store.faults) && own.Some? && own.value.enabled
              && own.value.clientID != "" && own.value.clientID != "authpole_proxy"
              && !HasPrefix(own.value.clientID, "google_oauth_client_id") && !HasPrefix(own.value.clientID, "github_oauth_client_id")
              ==> p == own
      ensures Resolves(org, client, id, p, store.faults > old(store.faults))
    {
      ownLost, defaultLost := false, false;
      if client == ADMIN_CONSOLE {
        p := PlatformProvider(id, env);
        return;
      }
      ProviderKeyText(org, id);
      var rec, fault := store.Get(ProviderKey(org, id));
      ownLost := !fault.NoFault?;
      if rec.Ok? {
        p := DecodeUsable(rec.value.data);
        if p.Some? {
          return;
        }
      }
      if org != DEFAULT_ORGANIZATION {
        ProviderKeyText(DEFAULT_ORGANIZATION, id);
        rec, fault := store.Get(ProviderKey(DEFAULT_ORGANIZATION, id));
        defaultLost := !fault.NoFault?;
        if rec.Ok? {
          p := DecodeUsable(rec.value.data);
          if p.Some? {
            return;
          }
        }
      }
      p := None;
    }

    /** decodeUsable, with isPlaceholder in it. */
    method DecodeUsable(r: ProviderRecord) returns (p: Option<IdentityProvider>)
      ensures p == if FilledIn(r) then r else None
    {
      if r.None? {
        return None;
      }
      var clientID := r.value.clientID;
      var placeholder := clientID == "" || HasPrefix(clientID, "google_oauth_client_id") || HasPrefix(clientID, "github_oauth_client_id")
                         || clientID == "authpole_proxy";
      if !r.value.enabled || placeholder {
        return None;
      }
      return r;
    }
  }

  /** What is resolved when the reads named fail. */
  function Resolution(records: map<string, Versioned<ProviderRecord>>, org: string, id: string, ownLost: bool, defaultLost: bool): Option<IdentityProvider> {
    var own := if ownLost then None else UsableFor(records, org, id);
    if own.Some? then own
    else if org == DEFAULT_ORGANIZATION || defaultLost then None
    else UsableFor(records, DEFAULT_ORGANIZATION, id)
  }

  /** Whichever reads fail, an organization's own provider is never replaced, exactly when the default one has no other under its id. */
  lemma OwnProviderStaysIff(records: map<string, Versioned<ProviderRecord>>, org: string, id: string)
    requires UsableFor(records, org, id).Some?
    ensures (forall ownLost, defaultLost | Resolution(records, org, id, ownLost, defaultLost).Some? ::
               Resolution(records, org, id, ownLost, defaultLost) == UsableFor(records, org, id))
       <==> UsableFor(records, DEFAULT_ORGANIZATION, id) in {None, UsableFor(records, org, id)}
  {
    if UsableFor(records, DEFAULT_ORGANIZATION, id) !in {None, UsableFor(records, org, id)} {
      assert Resolution(records, org, id, true, false) == UsableFor(records, DEFAULT_ORGANIZATION, id);
    }
  }

  ghost predicate Offers(records: map<string, Versioned<ProviderRecord>>, org: string, n: string) {
    n in records && HasPrefix(n, ProviderPrefix(org)) && Offered(records[n].data) != []
  }

  lemma {:induction false} OfferedBySomebody(records: map<string, Versioned<ProviderRecord>>, order: seq<string>)
    requires (forall n | n in order :: n in records) && OfferedBy(records, order) != []
    ensures exists n :: n in order && Offered(records[n].data) != []
  {
    var front, last := order[..|order| - 1], order[|order| - 1];
    if Offered(records[last].data) == [] {
      assert forall n | n in front :: n in order;
      OfferedBySomebody(records, front);
    }
  }

  /** With every other record's reading failing, one offer is all there seems to be. */
  lemma OnlyOneRead(records: map<string, Versioned<ProviderRecord>>, org: string, n: string)
    requires Offers(records, org, n)
    ensures EnabledAre(records - (records.Keys - {n}), org, Offered(records[n].data)) && |Offered(records[n].data)| == 1
  {
    var one := records - (records.Keys - {n});
    assert one.Keys == {n} && one[n] == records[n];
    assert OfferedBy(one, [n]) == OfferedBy(one, []) + Offered(one[n].data) by {
      assert [n][..0] == [];
    }
    var offer := Offered(records[n].data);
    assert offer == [offer[0]] && Sorted([offer[0]]) == [offer[0]];
    assert OfferedBy(one, [n]) == offer;
    assert Enumerates(one, org, [n]) && offer == Sorted(OfferedBy(one, [n]));
  }

  lemma SomebodyOffers(records: map<string, Versioned<ProviderRecord>>, org: string, ids: seq<string>)
    requires EnabledAre(records, org, ids) && ids != []
    ensures exists n :: Offers(records, org, n)
  {
    var order :| Enumerates(records, org, order) && ids == Sorted(OfferedBy(records, order));
    OfferedBySomebody(records, order);
    var n :| n in order && Offered(records[n].data) != [];
    assert Offers(records, org, n);
  }

  /**
   * When reads fail, a tenant can appear to offer just one provider, which is then chosen without being named, exactly when
   * it offers any at all.
   */
  lemma SingleChoiceIff(records: map<string, Versioned<ProviderRecord>>, org: string)
    ensures (exists lost, id :: EnabledAre(records - lost, org, [id])) <==> exists n :: Offers(records, org, n)
  {
    if n :| Offers(records, org, n) {
      OnlyOneRead(records, org, n);
      assert Offered(records[n].data) == [records[n].data.value.id];
    }
    if lost, id :| EnabledAre(records - lost, org, [id]) {
      SomebodyOffers(records - lost, org, [id]);
      var n :| Offers(records - lost, org, n);
      assert Offers(records, org, n);
    }
  }

  /** The names read so far, each once, in the order they were read. */
  ghost predicate ReadSoFar(names: set<string>, order: seq<string>, todo: set<string>, lost: set<string>) {
    && todo <= names && lost <= names && todo !! lost
    && (forall n :: n in order <==> n in names && n !in todo && n !in lost)
    && (forall i, j | 0 <= i < j < |order| :: order[i] != order[j])
  }

  lemma ReadsOneMore(names: set<string>, order: seq<string>, todo: set<string>, lost: set<string>, name: string)
    requires ReadSoFar(names, order, todo, lost) && name in todo
    ensures ReadSoFar(names, order + [name], todo - {name}, lost)
  {
    assert name !in order;
  }

  lemma OfferedNext(records: map<string, Versioned<ProviderRecord>>, order: seq<string>, name: string)
    requires name in records && forall n | n in order :: n in records
    ensures OfferedBy(records, order + [name]) == OfferedBy(records, order) + Offered(records[name].data)
  {
    assert (order + [name])[..|order|] == order;
  }

  lemma {:induction false} OfferedWithout(records: map<string, Versioned<ProviderRecord>>, lost: set<string>, order: seq<string>)
    requires forall n | n in order :: n in records && n !in lost
    ensures OfferedBy(records - lost, order) == OfferedBy(records, order)
  {
    if order != [] {
      OfferedWithout(records, lost, order[..|order| - 1]);
    }
  }

  // --- the redirect to a provider ---

  /** A URL and its query parameters, before they are encoded. */
  datatype Redirect = Redirect(url: string, params: map<string, string>)

  const PROTOCOL_PARAMETERS: set<string> := {"client_id", "redirect_uri", "response_type", "state"}

  /**
   * The parameters of the redirect: the provider's extra ones are all there, except that none of them replaces one that
   * carries our own state, callback, client or response type.
   */
  method AuthorizeParameters(p: IdentityProvider, callbackURL: string, stateID: string) returns (params: map<string, string>)
    ensures "client_id" in params && params["client_id"] == p.clientID
    ensures "redirect_uri" in params && params["redirect_uri"] == callbackURL
    ensures "response_type" in params && params["response_type"] == "code"
    ensures "state" in params && params["state"] == stateID
    ensures "scope" in params
    ensures params["scope"] == if "scope" in p.extraAuthParams then p.extraAuthParams["scope"]
                               else if p.scopes == [] then "openid profile email" else Join(p.scopes, ' ')
    ensures params.Keys == PROTOCOL_PARAMETERS + {"scope"} + p.extraAuthParams.Keys
    ensures forall k | k in p.extraAuthParams && k !in PROTOCOL_PARAMETERS :: params[k] == p.extraAuthParams[k]
  {
    var scope := "openid profile email";
    if |p.scopes| > 0 {
      scope := Join(p.scopes, ' ');
    }
    params := map["client_id" := p.clientID, "redirect_uri" := callbackURL, "response_type" := "code", "scope" := scope, "state" := stateID];
    var todo := p.extraAuthParams.Keys;
    while todo != {}
      invariant todo <= p.extraAuthParams.Keys
      invariant params.Keys == PROTOCOL_PARAMETERS + {"scope"} + (p.extraAuthParams.Keys - todo)
      invariant params["client_id"] == p.clientID && params["redirect_uri"] == callbackURL
      invariant params["response_type"] == "code" && params["state"] == stateID
      invariant "scope" in p.extraAuthParams.Keys - todo || params["scope"] == scope
      invariant forall k | k in p.extraAuthParams.Keys - todo && k !in PROTOCOL_PARAMETERS :: params[k] == p.extraAuthParams[k]
      decreases |todo|
    {
      var key :| key in todo;
      todo := todo - {key};
      if key in {"client_id", "redirect_uri", "response_type", "state"} {
        continue;
      }
      params := params[key := p.extraAuthParams[key]];
    }
  }

  // --- the calls to a provider ---

  /** A token endpoint's answer: the status, and the body if it parses. */
  datatype TokenBody = TokenBody(accessToken: string, error: string)
  datatype TokenAnswer = TokenAnswer(status: int, body: Option<TokenBody>)

  /** What a form posted to a URL is answered with; None when the call fails. */
  type Post = (string, map<string, string>) -> Option<TokenAnswer>

  datatype Upstream = Upstream(post: Post, get: Fetch)

  /** What a token endpoint answers to a code, from this client and for this callback. */
  function TokenAnswerFor(p: IdentityProvider, callbackURL: string, code: string, upstream: Upstream): Option<TokenAnswer> {
    upstream.post(p.tokenURL, map["grant_type" := "authorization_code", "code" := code, "redirect_uri" := callbackURL,
                                  "client_id" := p.clientID, "client_secret" := p.clientSecret])
  }

  /** The identity a provider gives for a code, if its answers amount to one. */
  ghost predicate Identifies(presets: Presets, provider: IdentityProvider, callbackURL: string, code: string, upstream: Upstream, claims: AuthClaims) {
    var p := EffectiveProvider(presets, provider);
    var answer := TokenAnswerFor(p, callbackURL, code, upstream);
    && p.tokenURL != "" && answer.Some? && 200 <= answer.value.status < 300
    && answer.value.body.Some? && answer.value.body.value.error == "" && answer.value.body.value.accessToken != ""
    && var accessToken := answer.value.body.value.accessToken;
    && p.userInfoURL != "" && p.mapping.subject != "" && ProfileCame(p, accessToken, upstream.get)
    && var profile := upstream.get(p.userInfoURL, accessToken).value.fields;
    && var email := EmailOf(p, profile, accessToken, upstream.get);
    && !Disowned(p, profile, email) && ClaimsFrom(claims, p, profile, email)
  }

  /** The first call: the code goes, with our credentials, to the provider's token endpoint; "" when it grants nothing. */
  method RedeemUpstreamCode(p: IdentityProvider, callbackURL: string, code: string, upstream: Upstream) returns (accessToken: string)
    ensures var answer := TokenAnswerFor(p, callbackURL, code, upstream);
            && (accessToken != "" <==> p.tokenURL != "" && answer.Some? && 200 <= answer.value.status < 300
                                       && answer.value.body.Some? && answer.value.body.value.error == ""
                                       && answer.value.body.value.accessToken != "")
            && (accessToken != "" ==> accessToken == answer.value.body.value.accessToken)
  {
    if p.tokenURL == "" {
      return "";
    }
    var form := map["code" := code, "client_id" := p.clientID, "client_secret" := p.clientSecret, "redirect_uri" := callbackURL,
                    "grant_type" := "authorization_code"];
    assert form == map["grant_type" := "authorization_code", "code" := code, "redirect_uri" := callbackURL,
                       "client_id" := p.clientID, "client_secret" := p.clientSecret];
    var answer := upstream.post(p.tokenURL, form);
    if answer.None? {
      return "";
    }
    if answer.value.status < 200 || answer.value.status >= 300 {
      return "";
    }
    if answer.value.body.None? || answer.value.body.value.error != "" || answer.value.body.value.accessToken == "" {
      return "";
    }
    return answer.value.body.value.accessToken;
  }

  /**
   * The upstream half of ProcessUpstreamCallback: the code goes to the provider's own token endpoint, and the identity comes
   * from its profile endpoint under the token it granted. There is one exactly when all its answers amount to one.
   */
  method FetchIdentity(presets: Presets, provider: IdentityProvider, callbackURL: string, code: string, upstream: Upstream) returns (claims: Option<AuthClaims>)
    ensures claims.Some? ==> Identifies(presets, provider, callbackURL, code, upstream, claims.value)
    ensures claims.None? ==> forall c :: !Identifies(presets, provider, callbackURL, code, upstream, c)
  {
    var accessToken := RedeemUpstreamCode(EffectiveProvider(presets, provider), callbackURL, code, upstream);
    if accessToken == "" {
      return None;
    }
    var fetched := FetchUpstreamClaims(presets, provider, accessToken, upstream.get);
    return if fetched.Ok? then Some(fetched.value) else None;
  }
}
