/** Storage object keys (pkg/storage/storage.go) and cache keys (pkg/cache/cache.go). */
module Keys {
  import opened Text

  /** The single-use records of an authorization exchange. */
  datatype SessionKey =
    | StateKey(handle: string)
    | CodeKey(handle: string)
    | RefreshKey(handle: string)
  {
    function Render(): string {
      match this
      case StateKey(h) => "sessions/states/" + h + ".json"
      case CodeKey(h) => "sessions/codes/" + h + ".json"
      case RefreshKey(h) => "sessions/refresh/" + h + ".json"
    }
  }

  /** The directories an organization's records are filed under. */
  datatype OrgArea = Apps | IDPs | SigningKeys | AdminUsers | Teams | Roles | Workloads
  {
    function Path(): string {
      match this
      case Apps => "apps/"
      case IDPs => "idps/"
      case SigningKeys => "keys/"
      case AdminUsers => "admin/users/"
      case Teams => "admin/teams/"
      case Roles => "admin/roles/"
      case Workloads => "spiffe/workloads/"
    }
  }

  /** Everything else lives under the organization that owns it. */
  datatype OrgKey = OrganizationKey(org: string) | RecordKey(org: string, area: OrgArea, id: string)
  {
    /** What follows "organizations/<org>/". */
    function Tail(): string {
      match this
      case OrganizationKey(_) => "metadata.json"
      case RecordKey(_, area, id) => area.Path() + (id + ".json")
    }

    function Render(): string {
      "organizations/" + (org + "/" + Tail())
    }
  }

  /** The text of a record's name, as the builders format it. */
  lemma RecordText(org: string, area: OrgArea, id: string)
    ensures RecordKey(org, area, id).Render() == "organizations/" + org + "/" + area.Path() + id + ".json"
  {
    assert "organizations/" + (org + "/" + (area.Path() + (id + ".json"))) == "organizations/" + org + "/" + area.Path() + id + ".json";
  }

  /** The prefix every key listing uses. */
  function SigningKeyPrefix(org: string): string {
    "organizations/" + org + "/keys/"
  }

  /** A session key's text determines which kind of record it names and for which handle. */
  lemma SessionKeysPartition(j: SessionKey, k: SessionKey)
    requires j.Render() == k.Render()
    ensures j == k
  {
    var s := j.Render();
    assert s[9] == k.Render()[9];
    assert s[9] == match j { case StateKey(_) => 's' case CodeKey(_) => 'c' case RefreshKey(_) => 'r' };
    assert s[9] == match k { case StateKey(_) => 's' case CodeKey(_) => 'c' case RefreshKey(_) => 'r' };
    var area := match j { case StateKey(_) => "sessions/states/" case CodeKey(_) => "sessions/codes/" case RefreshKey(_) => "sessions/refresh/" };
    assert j.Render() == area + (j.handle + ".json");
    assert k.Render() == area + (k.handle + ".json");
    CancelPrefix(area, j.handle + ".json", k.handle + ".json");
    CancelSuffix(j.handle, k.handle, ".json");
  }

  /** No organization-owned key, for any organization and id text, is a session key. */
  lemma SessionKeysApart(k: SessionKey, o: OrgKey)
    ensures k.Render() != o.Render()
  {
    assert k.Render()[0] == 's';
    assert o.Render()[0] == 'o';
  }

  lemma CutOrganization(o1: string, t1: string, o2: string, t2: string)
    requires '/' !in o1 && '/' !in o2
    requires HasPrefix("organizations/" + (o1 + "/" + t1), "organizations/" + (o2 + "/" + t2))
    ensures o1 == o2 && HasPrefix(t1, t2)
  {
    CancelCommonHead("organizations/", o1 + "/" + t1, o2 + "/" + t2);
    FirstCutPrefix(o1, t1, o2, t2, '/');
  }

  lemma AreasApart(a: OrgArea, x: string, b: OrgArea, y: string)
    requires a.Path() + x == b.Path() + y
    ensures a == b && x == y
  {
    var s := a.Path() + x;
    assert s[0] == a.Path()[0] == b.Path()[0];
    assert s[1] == a.Path()[1] == b.Path()[1];
    if a.AdminUsers? || a.Teams? || a.Roles? {
      assert s[6] == a.Path()[6] == b.Path()[6];
    }
    CancelPrefix(a.Path(), x, y);
  }

  lemma TailsDetermineKey(j: OrgKey, k: OrgKey)
    requires j.org == k.org && j.Tail() == k.Tail()
    ensures j == k
  {
    assert j.RecordKey? ==> j.Tail()[0] == j.area.Path()[0] && j.Tail()[0] != 'm';
    assert k.RecordKey? ==> k.Tail()[0] == k.area.Path()[0] && k.Tail()[0] != 'm';
    if j.RecordKey? && k.RecordKey? {
      AreasApart(j.area, j.id + ".json", k.area, k.id + ".json");
      CancelSuffix(j.id, k.id, ".json");
    }
  }

  /** For organization ids without a slash the key builders never collide. */
  lemma OrgKeysInjective(j: OrgKey, k: OrgKey)
    requires '/' !in j.org && '/' !in k.org
    requires j.Render() == k.Render()
    ensures j == k
  {
    CutOrganization(j.org, j.Tail(), k.org, k.Tail());
    CutOrganization(k.org, k.Tail(), j.org, j.Tail());
    TailsDetermineKey(j, k);
  }

  function KeyPairKey(org: string, id: string): OrgKey {
    RecordKey(org, SigningKeys, id)
  }

  lemma ListedIsKeyPair(org: string, k: OrgKey)
    requires '/' !in org && '/' !in k.org && HasPrefix(k.Render(), SigningKeyPrefix(org))
    ensures k.RecordKey? && k == KeyPairKey(org, k.id)
  {
    assert SigningKeyPrefix(org) == "organizations/" + (org + "/" + "keys/");
    CutOrganization(k.org, k.Tail(), org, "keys/");
    assert k.Tail()[0] == 'k';
    assert k.RecordKey?;
    assert k.area.Path()[0] == 'k';
  }

  lemma KeyPairIsListed(org: string, id: string)
    ensures HasPrefix(KeyPairKey(org, id).Render(), SigningKeyPrefix(org))
  {
    assert KeyPairKey(org, id).Render() == SigningKeyPrefix(org) + (id + ".json");
  }

  /** Listing an organization's keys yields exactly its own signing keys. */
  lemma KeyListingIsExact(org: string, k: OrgKey)
    requires '/' !in org && '/' !in k.org
    ensures HasPrefix(k.Render(), SigningKeyPrefix(org)) <==> k.org == org && exists id :: k == KeyPairKey(org, id)
  {
    if HasPrefix(k.Render(), SigningKeyPrefix(org)) {
      ListedIsKeyPair(org, k);
    }
    if id :| k == KeyPairKey(org, id) {
      KeyPairIsListed(org, id);
    }
  }

  /** For arbitrary text: which keys a listing of an organization's keys returns. */
  lemma KeyListingReturnsIff(org: string, k: OrgKey)
    ensures HasPrefix(k.Render(), SigningKeyPrefix(org)) <==>
              || k.org == org + "/keys"
              || HasPrefix(k.org, org + "/keys/")
              || (HasPrefix(org + "/keys", k.org + "/") && HasPrefix(k.Tail(), (org + "/keys")[|k.org| + 1..] + "/"))
  {
    var whole, part := k.org + "/" + k.Tail(), org + "/keys" + "/";
    assert k.Render() == "organizations/" + whole;
    assert SigningKeyPrefix(org) == "organizations/" + part;
    if HasPrefix(k.Render(), SigningKeyPrefix(org)) {
      CancelCommonHead("organizations/", whole, part);
    }
    PrefixAcrossSeparator(k.org, k.Tail(), org + "/keys", '/');
    assert HasPrefix(whole, part) ==> HasPrefix("organizations/" + whole, "organizations/" + part);
    assert org + "/keys" + "/" == org + "/keys/";
  }

  /** A signing key's record, whose id has no slash, is in another organization's listing exactly when that one is shadowed. */
  lemma KeyListedIff(org: string, owner: string, id: string)
    requires '/' !in id
    ensures HasPrefix(KeyPairKey(owner, id).Render(), SigningKeyPrefix(org)) <==> owner == org || Shadows(org, owner, "keys", '/')
  {
    var k := KeyPairKey(owner, id);
    KeyListingReturnsIff(org, k);
    var long := org + "/keys";
    assert long + "/" == org + "/" + "keys" + "/";
    if HasPrefix(long, owner + "/") && HasPrefix(k.Tail(), long[|owner| + 1..] + "/") {
      OneSlashTail(id, long[|owner| + 1..]);
      assert long == owner + "/" + long[|owner| + 1..];
      CancelSuffix(owner, org, "/keys");
    }
    if owner == org {
      assert long[|owner| + 1..] + "/" == "keys/";
      assert HasPrefix("keys/" + (id + ".json"), "keys/");
      assert HasPrefix(long, owner + "/");
    }
    if Shadows(org, owner, "keys", '/') {
      ShadowCases(owner, long);
    }
    if HasPrefix(owner, org + "/keys/") {
      assert HasPrefix(owner + "/", org + "/" + "keys" + "/");
    }
  }

  lemma ShadowCases(owner: string, long: string)
    requires HasPrefix(owner + "/", long + "/")
    ensures owner == long || HasPrefix(owner, long + "/")
  {
    var whole := owner + "/";
    if |owner| == |long| {
      assert whole[..|long|] == owner && (long + "/")[..|long|] == long;
    } else {
      assert whole[..|long| + 1] == owner[..|long| + 1];
    }
  }

  /** The tail of a signing key's record has one slash, after "keys". */
  lemma OneSlashTail(id: string, x: string)
    requires '/' !in id && HasPrefix("keys/" + (id + ".json"), x + "/")
    ensures x == "keys"
  {
    var tail := "keys/" + (id + ".json");
    assert tail[|x|] == '/';
    assert forall i | 4 < i < |tail| :: tail[i] == (id + ".json")[i - 5];
    assert '/' !in id + ".json";
    assert tail[0] != '/' && tail[1] != '/' && tail[2] != '/' && tail[3] != '/';
    assert |x| == 4 && x == tail[..4] == "keys";
  }

  /** Signing key records never share a name, whatever the organizations, as long as their ids have no slash. */
  lemma KeyPairNamesInjective(o: string, id: string, p: string, other: string)
    requires '/' !in id && '/' !in other && KeyPairKey(o, id).Render() == KeyPairKey(p, other).Render()
    ensures o == p && id == other
  {
    var a, b := o + "/" + ("keys/" + (id + ".json")), p + "/" + ("keys/" + (other + ".json"));
    CancelPrefix("organizations/", a, b);
    assert a == (o + "/keys") + "/" + (id + ".json") && b == (p + "/keys") + "/" + (other + ".json");
    LastCut(o + "/keys", id + ".json", p + "/keys", other + ".json", '/');
    CancelSuffix(o, p, "/keys");
    CancelSuffix(id, other, ".json");
  }

  /** The slash condition matters: an organization may be named so that another's listing shows its key. */
  lemma SlashedOrganizationLeaks()
    ensures Shadows("acme", "acme/keys/x", "keys", '/')
    ensures HasPrefix(KeyPairKey("acme/keys/x", "k1").Render(), SigningKeyPrefix("acme"))
  {
    assert "acme/keys/x" + "/" == "acme" + "/" + "keys" + "/" + "x/";
    KeyListedIff("acme", "acme/keys/x", "k1");
  }

  /** Two organizations' application records can share a storage key exactly when one organization shadows the other. */
  lemma AppRecordsCollideIff(o: string, p: string)
    requires o != p
    ensures (exists c, d :: RecordKey(o, Apps, c).Render() == RecordKey(p, Apps, d).Render())
       <==> Shadows(o, p, "apps", '/') || Shadows(p, o, "apps", '/')
  {
    FieldsCollideIff(o, p, "apps", '/');
    forall c, d ensures RecordKey(o, Apps, c).Render() == RecordKey(p, Apps, d).Render()
                   <==> o + "/" + "apps" + "/" + c == p + "/" + "apps" + "/" + d {
      AppRecordText(o, c);
      AppRecordText(p, d);
      if RecordKey(o, Apps, c).Render() == RecordKey(p, Apps, d).Render() {
        CancelSuffix("organizations/" + (o + "/" + "apps" + "/" + c), "organizations/" + (p + "/" + "apps" + "/" + d), ".json");
        CancelPrefix("organizations/", o + "/" + "apps" + "/" + c, p + "/" + "apps" + "/" + d);
      }
    }
  }

  /** Organizations that do not shadow each other never share an application record's name. */
  lemma AppRecordsDetermine(o: string, c: string, p: string, d: string)
    requires !Shadows(o, p, "apps", '/') && !Shadows(p, o, "apps", '/')
    requires RecordKey(o, Apps, c).Render() == RecordKey(p, Apps, d).Render()
    ensures o == p && c == d
  {
    AppRecordText(o, c);
    AppRecordText(p, d);
    var a, b := o + "/" + "apps" + "/" + c, p + "/" + "apps" + "/" + d;
    CancelSuffix("organizations/" + a, "organizations/" + b, ".json");
    CancelPrefix("organizations/", a, b);
    FieldsDetermine(o, c, p, d, "apps", '/');
  }

  lemma AppRecordText(o: string, c: string)
    ensures RecordKey(o, Apps, c).Render() == "organizations/" + (o + "/" + "apps" + "/" + c) + ".json"
  {
    assert o + "/" + ("apps/" + (c + ".json")) == (o + "/" + "apps" + "/" + c) + ".json";
  }

  datatype CacheArea = MetaArea | AppArea | IDPArea | KeysArea | JWKSArea

  /** A typed view of the cache key text; `id` is unused by the metadata key. */
  datatype CacheKey = CacheKey(org: string, area: CacheArea, id: string)
  {
    function Tail(): string {
      match area
      case MetaArea => "meta"
      case AppArea => "app:" + id
      case IDPArea => "idp:" + id
      case KeysArea => "keys:" + id
      case JWKSArea => "jwks:" + id
    }

    function Render(): string {
      "o:" + org + ":" + Tail()
    }

    predicate Canonical() {
      area == MetaArea ==> id == ""
    }
  }

  /** What InvalidateOrganization matches on. */
  function OrganizationPrefix(org: string): string {
    "o:" + org + ":"
  }

  lemma CacheTailsInjective(j: CacheKey, k: CacheKey)
    requires j.org == k.org && j.Canonical() && k.Canonical()
    requires j.Tail() == k.Tail()
    ensures j == k
  {
    assert j.Tail()[0] == k.Tail()[0];
    var area := match j.area { case MetaArea => "meta" case AppArea => "app:" case IDPArea => "idp:" case KeysArea => "keys:" case JWKSArea => "jwks:" };
    if j.area != MetaArea {
      assert j.Tail() == area + j.id;
      assert k.Tail() == area + k.id;
      CancelPrefix(area, j.id, k.id);
    }
  }

  /** The cached fields that hold one value per application. */
  function FieldTag(area: CacheArea): string
    requires !area.MetaArea?
  {
    match area
    case AppArea => "app"
    case IDPArea => "idp"
    case KeysArea => "keys"
    case JWKSArea => "jwks"
  }

  lemma FieldTail(org: string, area: CacheArea, id: string)
    requires !area.MetaArea?
    ensures ':' !in FieldTag(area)
    ensures CacheKey(org, area, id).Tail() == FieldTag(area) + ":" + id
  {
    match area
    case AppArea => assert "app:" == "app" + ":";
    case IDPArea => assert "idp:" == "idp" + ":";
    case KeysArea => assert "keys:" == "keys" + ":";
    case JWKSArea => assert "jwks:" == "jwks" + ":";
  }

  lemma FieldText(org: string, area: CacheArea, id: string)
    requires !area.MetaArea?
    ensures ':' !in FieldTag(area)
    ensures CacheKey(org, area, id).Render() == "o:" + (org + ":" + FieldTag(area) + ":" + id)
  {
    var tag := FieldTag(area);
    FieldTail(org, area, id);
    assert org + ":" + (tag + ":" + id) == org + ":" + tag + ":" + id;
  }

  /** The text of a field's key, cut where the builders' formats are. */
  lemma CacheKeyText(org: string, area: CacheArea, format: string, id: string)
    requires !area.MetaArea? && format == ":" + FieldTag(area) + ":"
    ensures CacheKey(org, area, id).Render() == "o:" + org + format + id
  {
    FieldTail(org, area, id);
    assert "o:" + org + ":" + (FieldTag(area) + ":" + id) == "o:" + org + (":" + FieldTag(area) + ":") + id;
  }

  /**
   * Two organizations' entries of one kind can share a cache key exactly when one organization shadows the other: with
   * "a:app:x", the application "y" is cached where "a" caches its application "x:app:y".
   */
  lemma CacheKeysCollideIff(o: string, p: string, area: CacheArea)
    requires o != p && !area.MetaArea?
    ensures (exists c, d :: CacheKey(o, area, c).Render() == CacheKey(p, area, d).Render())
       <==> Shadows(o, p, FieldTag(area), ':') || Shadows(p, o, FieldTag(area), ':')
  {
    var tag := FieldTag(area);
    FieldText(o, area, "");
    FieldsCollideIff(o, p, tag, ':');
    forall c, d ensures CacheKey(o, area, c).Render() == CacheKey(p, area, d).Render()
                   <==> o + ":" + tag + ":" + c == p + ":" + tag + ":" + d {
      FieldText(o, area, c);
      FieldText(p, area, d);
      if CacheKey(o, area, c).Render() == CacheKey(p, area, d).Render() {
        CancelPrefix("o:", o + ":" + tag + ":" + c, p + ":" + tag + ":" + d);
      }
    }
  }

  /** The input: organization "a" with client "x:app:y", organization "a:app:x" with client "y". */
  lemma CacheCollisionExample()
    ensures CacheKey("a", AppArea, "x:app:y").Render() == CacheKey("a:app:x", AppArea, "y").Render()
    ensures Shadows("a", "a:app:x", "app", ':')
  {
    assert CacheKey("a", AppArea, "x:app:y").Render() == "o:a:app:x:app:y";
    assert CacheKey("a:app:x", AppArea, "y").Render() == "o:a:app:x:app:y";
    assert "a:app:x" + ":" == "a" + ":" + "app" + ":" + "x:";
  }

  /** Organizations that do not shadow each other never share a cache key of that kind. */
  lemma CacheKeysDetermine(o: string, c: string, p: string, d: string, area: CacheArea)
    requires !area.MetaArea? && !Shadows(o, p, FieldTag(area), ':') && !Shadows(p, o, FieldTag(area), ':')
    requires CacheKey(o, area, c).Render() == CacheKey(p, area, d).Render()
    ensures o == p && c == d
  {
    var tag := FieldTag(area);
    FieldText(o, area, c);
    FieldText(p, area, d);
    CancelPrefix("o:", o + ":" + tag + ":" + c, p + ":" + tag + ":" + d);
    FieldsDetermine(o, c, p, d, tag, ':');
  }

  /** Whose applications never share a cache key or a record. */
  predicate AppsApartFrom(o: string, p: string) {
    && !Shadows(o, p, "app", ':') && !Shadows(p, o, "app", ':')
    && !Shadows(o, p, "apps", '/') && !Shadows(p, o, "apps", '/')
  }

  /** Whose signing keys never share a cache key or a listing. */
  predicate KeysApartFrom(o: string, p: string) {
    && !Shadows(o, p, "keys", ':') && !Shadows(p, o, "keys", ':')
    && !Shadows(o, p, "keys", '/') && !Shadows(p, o, "keys", '/')
  }

  ghost predicate AppsApart(tenants: set<string>) {
    forall o, p {:trigger AppsApartFrom(o, p)} | o in tenants && p in tenants :: AppsApartFrom(o, p)
  }

  ghost predicate KeysApart(tenants: set<string>) {
    forall o, p {:trigger KeysApartFrom(o, p)} | o in tenants && p in tenants :: KeysApartFrom(o, p)
  }

  /** Ids without colons and slashes, in particular, are apart. */
  lemma PlainTenantsAreApart(tenants: set<string>)
    requires forall o | o in tenants :: ':' !in o && '/' !in o
    ensures AppsApart(tenants) && KeysApart(tenants)
  {
    forall o, p, tag, sep | o in tenants && p in tenants && (sep == ':' || sep == '/') ensures !Shadows(o, p, tag, sep) {
      if Shadows(o, p, tag, sep) {
        ShadowHasSeparator(o, p, tag, sep);
      }
    }
  }

  /** Colon-free organization ids make the cache key text injective, whatever the application id. */
  lemma CacheKeysInjective(j: CacheKey, k: CacheKey)
    requires ':' !in j.org && ':' !in k.org && j.Canonical() && k.Canonical()
    requires j.Render() == k.Render()
    ensures j == k
  {
    var a, b := j.org + ":" + j.Tail(), k.org + ":" + k.Tail();
    assert j.Render() == "o:" + a && k.Render() == "o:" + b;
    CancelPrefix("o:", a, b);
    FirstCut(j.org, j.Tail(), k.org, k.Tail(), ':');
    CacheTailsInjective(j, k);
  }

  /** InvalidateOrganization's prefix test selects exactly the organization's own entries. */
  lemma OrganizationPrefixIsExact(org: string, k: CacheKey)
    requires ':' !in org && ':' !in k.org
    ensures HasPrefix(k.Render(), OrganizationPrefix(org)) <==> k.org == org
  {
    var whole, part := k.org + ":" + k.Tail(), org + ":" + "";
    assert k.Render() == "o:" + whole;
    assert OrganizationPrefix(org) == "o:" + part;
    if HasPrefix(k.Render(), OrganizationPrefix(org)) {
      CancelCommonHead("o:", whole, part);
      FirstCutPrefix(k.org, k.Tail(), org, "", ':');
    }
    if k.org == org {
      assert k.Render() == OrganizationPrefix(org) + k.Tail();
    }
  }

  /** For arbitrary text: which entries InvalidateOrganization drops. */
  lemma InvalidationDropsIff(org: string, k: CacheKey)
    ensures HasPrefix(k.Render(), OrganizationPrefix(org)) <==>
              || k.org == org
              || HasPrefix(k.org, org + ":")
              || (HasPrefix(org, k.org + ":") && HasPrefix(k.Tail(), org[|k.org| + 1..] + ":"))
  {
    var whole, part := k.org + ":" + k.Tail(), org + ":";
    assert k.Render() == "o:" + whole;
    assert OrganizationPrefix(org) == "o:" + part;
    if HasPrefix(k.Render(), OrganizationPrefix(org)) {
      CancelCommonHead("o:", whole, part);
    }
    PrefixAcrossSeparator(k.org, k.Tail(), org, ':');
    assert HasPrefix(whole, part) ==> HasPrefix("o:" + whole, "o:" + part);
  }
}
