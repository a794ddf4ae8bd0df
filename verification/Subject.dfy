/** From an upstream profile to an account key (pkg/idp/claims.go). */
module Subject {
  import opened Wrappers
  import opened Text
  import opened Models
  import opened Presets

  /** A decoded profile value. Integral numbers are kept apart from all others, which only get formatted. */
  datatype Value =
    | Null
    | Str(text: string)
    | Flag(value: bool)
    | Whole(number: int)
    | Object(fields: map<string, Value>)
    | Items(items: seq<Value>)
    | Other(tag: nat)

  const FormatOther: Value -> string

  // --- field paths ---

  function Follow(v: Value, path: seq<string>): Option<Value> {
    if path == [] then Some(v)
    else if v.Object? && path[0] in v.fields then Follow(v.fields[path[0]], path[1..])
    else None
  }

  function Lookup(profile: map<string, Value>, path: string): Option<Value> {
    if path == "" then None else Follow(Object(profile), Split(path, '.'))
  }

  method LookupField(profile: map<string, Value>, path: string) returns (found: Option<Value>)
    ensures found == Lookup(profile, path)
  {
    if path == "" {
      return None;
    }
    var segments := Split(path, '.');
    var current := Object(profile);
    var i := 0;
    while i < |segments|
      invariant 0 <= i <= |segments|
      invariant Follow(Object(profile), segments) == Follow(current, segments[i..])
    {
      if !current.Object? || segments[i] !in current.fields {
        return None;
      }
      assert segments[i..][1..] == segments[i + 1..];
      current := current.fields[segments[i]];
      i := i + 1;
    }
    return Some(current);
  }

  /** The object with one value under a path of field names. */
  function Nest(path: seq<string>, v: Value): Value {
    if path == [] then v else Object(map[path[0] := Nest(path[1..], v)])
  }

  lemma {:induction false} FollowNest(path: seq<string>, v: Value)
    ensures Follow(Nest(path, v), path) == Some(v)
  {
    if path != [] {
      FollowNest(path[1..], v);
    }
  }

  /** On every profile, a dotted path of dot-free names follows those names. */
  lemma LookupFollowsPath(profile: map<string, Value>, path: seq<string>)
    requires path != [] && Join(path, '.') != "" && forall p | p in path :: '.' !in p
    ensures Lookup(profile, Join(path, '.')) == Follow(Object(profile), path)
  {
    SplitJoin(path, '.');
  }

  /** On every profile, the path leads where the field names lead. */
  ghost predicate LeadsAlong(path: string, names: seq<string>) {
    forall profile :: Lookup(profile, path) == Follow(Object(profile), names)
  }

  /** Some path leads along given field names exactly when none of them has a dot and they are not the empty name alone. */
  lemma PathExistsIff(names: seq<string>)
    requires names != []
    ensures (exists path :: LeadsAlong(path, names)) <==> names != [""] && forall n | n in names :: '.' !in n
  {
    SplitsIff(names, '.');
    if names != [""] && forall n | n in names :: '.' !in n {
      var path :| path != "" && Split(path, '.') == names;
      assert LeadsAlong(path, names);
    }
    if path :| LeadsAlong(path, names) {
      PathDeterminesNames(path, names);
    }
  }

  /** A path that behaves like a list of names on every profile splits into them. */
  lemma PathDeterminesNames(path: string, names: seq<string>)
    requires names != [] && LeadsAlong(path, names)
    ensures path != "" && Split(path, '.') == names
  {
    var mine := Nest(names, Str("found"));
    FollowNest(names, Str("found"));
    assert mine == Object(mine.fields);
    assert Lookup(mine.fields, path) == Some(Str("found"));
    NestFollowsOnlyItself(Split(path, '.'), names, "found");
  }

  /** Text nested under some names is found along no other names. */
  lemma {:induction false} NestFollowsOnlyItself(path: seq<string>, names: seq<string>, text: string)
    requires Follow(Nest(names, Str(text)), path) == Some(Str(text))
    ensures path == names
  {
    if path != [] && names != [] {
      NestFollowsOnlyItself(path[1..], names[1..], text);
      assert path == [path[0]] + path[1..] && names == [names[0]] + names[1..];
    }
  }

  // --- subjects ---

  /** stringField. */
  function StringOf(v: Option<Value>): string {
    match v
    case None => ""
    case Some(Null) => ""
    case Some(Str(s)) => s
    case Some(Flag(b)) => if b then "true" else "false"
    case Some(Whole(n)) => FormatInt(n)
    case Some(other) => FormatOther(other)
  }

  method StringField(profile: map<string, Value>, path: string) returns (text: string)
    ensures text == StringOf(Lookup(profile, path))
  {
    var raw := LookupField(profile, path);
    if raw.None? || raw.value.Null? {
      return "";
    }
    if raw.value.Str? {
      return raw.value.text;
    }
    if raw.value.Flag? {
      return if raw.value.value then "true" else "false";
    }
    if raw.value.Whole? {
      return FormatInt(raw.value.number);
    }
    return FormatOther(raw.value);
  }

  // JSON numbers are decoded to 64-bit floats: 53 bits of precision, rounding to nearest with ties to even.

  const TWO_53: int := 0x20_0000_0000_0000
  const TWO_63: int := 0x8000_0000_0000_0000

  /** The distance between the floats around n. */
  function Step(n: nat): (step: nat)
    ensures step > 0
    ensures n < TWO_53 * step && (step > 1 ==> TWO_53 * step <= 2 * n)
  {
    if n < TWO_53 then 1 else 2 * Step(n / 2)
  }

  function NearestMultiple(n: nat, step: nat): nat
    requires step > 0
  {
    var q, r := n / step, n % step;
    if 2 * r < step || (2 * r == step && q % 2 == 0) then q * step else (q + 1) * step
  }

  lemma QuotientAndRest(n: nat, step: nat) returns (low: nat, rest: nat)
    requires step > 0
    ensures low == n / step * step && rest == n % step && n == low + rest && rest < step && (n / step + 1) * step == low + step
  {
    low, rest := n / step * step, n % step;
  }

  /** No float is nearer. */
  lemma NearestIsNearest(n: nat, step: nat)
    requires step > 0
    ensures 2 * NearestMultiple(n, step) <= 2 * n + step && 2 * n <= 2 * NearestMultiple(n, step) + step
  {
    var low, rest := QuotientAndRest(n, step);
  }

  function ToFloat(n: int): int {
    if n < 0 then 0 - NearestMultiple(-n, Step(-n)) else NearestMultiple(n, Step(n))
  }

  /** An integer in a profile, as the program sees it. */
  function Decoded(n: int): Value {
    var v := ToFloat(n);
    if -TWO_63 <= v < TWO_63 then Whole(v) else Other(if v < 0 then -2 * v else 2 * v + 1)
  }

  function IdText(n: int): string {
    StringOf(Some(Decoded(n)))
  }

  lemma SmallNumbersAreExact(n: int)
    requires -TWO_53 <= n <= TWO_53
    ensures Decoded(n) == Whole(n)
  {
    var m: nat := if n < 0 then -n else n;
    if m == TWO_53 {
      assert Step(m / 2) == 1;
      assert Step(m) == 2;
      assert m / 2 * 2 == m;
    } else {
      assert Step(m) == 1;
    }
    assert NearestMultiple(m, Step(m)) == m;
  }

  /** The first integer that is lost: it becomes its neighbour. */
  lemma FirstLostNumber()
    ensures Decoded(TWO_53 + 1) == Decoded(TWO_53)
  {
    var m := TWO_53 + 1;
    assert Step(m / 2) == 1;
    assert Step(m) == 2;
    assert m / 2 == TWO_53 / 2 && m % 2 == 1 && m / 2 % 2 == 0;
    assert NearestMultiple(m, 2) == m / 2 * 2 == TWO_53;
    SmallNumbersAreExact(TWO_53);
  }

  predicate Within(n: int, bound: int) {
    -bound <= n <= bound
  }

  ghost predicate DistinctWithin(bound: int) {
    forall m, n | Within(m, bound) && Within(n, bound) && IdText(m) == IdText(n) :: m == n
  }

  lemma SmallNumbersAreDistinct(m: int, n: int)
    requires Within(m, TWO_53) && Within(n, TWO_53) && IdText(m) == IdText(n)
    ensures m == n
  {
    SmallNumbersAreExact(m);
    SmallNumbersAreExact(n);
    FormatIntInjective(m, n);
  }

  /** Numeric account ids up to a bound keep their identity as text exactly when the bound is at most 2^53. */
  lemma NumericIdsDistinctIff(bound: int)
    ensures DistinctWithin(bound) <==> bound <= TWO_53
  {
    if bound <= TWO_53 {
      forall m, n | Within(m, bound) && Within(n, bound) && IdText(m) == IdText(n) ensures m == n {
        SmallNumbersAreDistinct(m, n);
      }
    } else {
      FirstLostNumber();
      assert IdText(TWO_53 + 1) == IdText(TWO_53);
      assert Within(TWO_53 + 1, bound) && Within(TWO_53, bound);
    }
  }

  function SubjectKey(idp: string, subject: string): string {
    idp + "_" + subject
  }

  /** Whether one provider id runs on from another past an underscore. */
  predicate RunsOn(a: string, b: string) {
    HasPrefix(a, b + "_")
  }

  lemma SameProviderSubjects(idp: string, a: string, b: string)
    requires SubjectKey(idp, a) == SubjectKey(idp, b)
    ensures a == b
  {
    CancelPrefix(idp + "_", a, b);
  }

  lemma CollisionMeansRunsOn(p: string, q: string, a: string, b: string)
    requires p != q && |p| <= |q| && SubjectKey(p, a) == SubjectKey(q, b)
    ensures RunsOn(q, p)
  {
    var s := SubjectKey(p, a);
    assert p == s[..|p|] == q[..|p|];
    assert |p| < |q|;
    assert p + "_" == s[..|p| + 1] == q[..|p| + 1];
  }

  /** Two providers have colliding subjects exactly when one's id starts with the other's followed by "_". */
  lemma ProvidersCollideIff(p: string, q: string)
    requires p != q
    ensures (exists a, b :: a != "" && b != "" && SubjectKey(p, a) == SubjectKey(q, b)) <==> RunsOn(p, q) || RunsOn(q, p)
  {
    forall a, b | SubjectKey(p, a) == SubjectKey(q, b) ensures RunsOn(p, q) || RunsOn(q, p) {
      if |p| <= |q| {
        CollisionMeansRunsOn(p, q, a, b);
      } else {
        CollisionMeansRunsOn(q, p, b, a);
      }
    }
    if RunsOn(q, p) {
      RunsOnCollides(p, q);
    } else if RunsOn(p, q) {
      RunsOnCollides(q, p);
    }
  }

  lemma RunsOnCollides(p: string, q: string)
    requires RunsOn(q, p)
    ensures exists a, b :: a != "" && b != "" && SubjectKey(p, a) == SubjectKey(q, b)
  {
    var a := q[|p| + 1..] + "_" + "x";
    assert q == p + "_" + q[|p| + 1..];
    assert SubjectKey(p, a) == SubjectKey(q, "x");
  }

  /** On a set of provider ids none of which runs on from another, subjects identify both provider and account. */
  lemma SubjectsIdentifyAccounts(providers: set<string>, p: string, a: string, q: string, b: string)
    requires p in providers && q in providers && a != "" && b != ""
    requires forall x, y | x in providers && y in providers :: !RunsOn(x, y)
    requires SubjectKey(p, a) == SubjectKey(q, b)
    ensures p == q && a == b
  {
    if p != q {
      ProvidersCollideIff(p, q);
    }
    SameProviderSubjects(p, a, b);
  }

  // --- normalizing a profile ---

  datatype ProfileError = NoUserInfoURL | NoSubjectMapping | FetchFailed | NoSubject | UnverifiedEmail

  datatype EmailEntry = EmailEntry(email: string, primary: bool, verified: bool)

  /** What an endpoint's answer parses to. */
  datatype Body = ObjectBody(fields: map<string, Value>) | EmailList(entries: seq<EmailEntry>) | Unparsable

  /** What comes back from a URL under an access token; None without an answer of status 2xx. */
  type Fetch = (string, string) -> Option<Body>

  /** What boolField reads: a flag, or the text of one as strconv.ParseBool reads it. */
  function FlagOf(v: Option<Value>): Option<bool> {
    match v
    case Some(Flag(b)) => Some(b)
    case Some(Str(s)) =>
      if s in {"1", "t", "T", "TRUE", "true", "True"} then Some(true)
      else if s in {"0", "f", "F", "FALSE", "false", "False"} then Some(false)
      else None
    case _ => None
  }

  method BoolField(profile: map<string, Value>, path: string) returns (value: Option<bool>)
    ensures value == FlagOf(Lookup(profile, path))
  {
    var raw := LookupField(profile, path);
    if raw.None? {
      return None;
    }
    if raw.value.Flag? {
      return Some(raw.value.value);
    }
    if raw.value.Str? {
      if raw.value.text in ["1", "t", "T", "TRUE", "true", "True"] {
        return Some(true);
      }
      if raw.value.text in ["0", "f", "F", "FALSE", "false", "False"] {
        return Some(false);
      }
    }
    return None;
  }

  /** The non-empty texts of a list, in order; anything else in it is passed over. */
  function Texts(items: seq<Value>): (r: seq<string>)
    ensures forall t :: t in r <==> t != "" && Str(t) in items
  {
    if items == [] then []
    else
      var front, last := Texts(items[..|items| - 1]), items[|items| - 1];
      assert items == items[..|items| - 1] + [last];
      if last.Str? && last.text != "" then front + [last.text] else front
  }

  function StringsAt(profile: map<string, Value>, path: string): seq<string> {
    match Lookup(profile, path)
    case Some(Items(items)) => Texts(items)
    case Some(Str(s)) => if s == "" then [] else Split(s, ' ')
    case _ => []
  }

  /** stringsField. */
  method StringsField(profile: map<string, Value>, path: string) returns (r: seq<string>)
    ensures r == StringsAt(profile, path)
  {
    var raw := LookupField(profile, path);
    if raw.Some? && raw.value.Items? {
      var items := raw.value.items;
      r := [];
      for i := 0 to |items|
        invariant r == Texts(items[..i])
      {
        assert items[..i + 1][..i] == items[..i];
        if items[i].Str? && items[i].text != "" {
          r := r + [items[i].text];
        }
      }
      assert items[..|items|] == items;
      return;
    }
    if raw.Some? && raw.value.Str? && raw.value.text != "" {
      return Split(raw.value.text, ' ');
    }
    return [];
  }

  function FirstVerified(entries: seq<EmailEntry>, primaryOnly: bool): Option<string> {
    if entries == [] then None
    else if entries[0].verified && (primaryOnly ==> entries[0].primary) then Some(entries[0].email)
    else FirstVerified(entries[1..], primaryOnly)
  }

  function PrimaryEmail(answer: Option<Body>): string {
    if answer.None? || !answer.value.EmailList? then ""
    else
      var entries := answer.value.entries;
      match FirstVerified(entries, true)
      case Some(email) => email
      case None => if FirstVerified(entries, false).Some? then FirstVerified(entries, false).value else ""
  }

  /** fetchPrimaryEmail. */
  method FetchPrimaryEmail(answer: Option<Body>) returns (email: string)
    ensures email == PrimaryEmail(answer)
  {
    if answer.None? || !answer.value.EmailList? {
      return "";
    }
    var entries := answer.value.entries;
    for i := 0 to |entries|
      invariant FirstVerified(entries, true) == FirstVerified(entries[i..], true)
    {
      if entries[i].primary && entries[i].verified {
        return entries[i].email;
      }
      assert entries[i..][1..] == entries[i + 1..];
    }
    for i := 0 to |entries|
      invariant FirstVerified(entries, false) == FirstVerified(entries[i..], false)
    {
      if entries[i].verified {
        return entries[i].email;
      }
      assert entries[i..][1..] == entries[i + 1..];
    }
    return "";
  }

  lemma {:induction false} FirstVerifiedIsVerified(entries: seq<EmailEntry>, primaryOnly: bool)
    ensures match FirstVerified(entries, primaryOnly)
            case None => forall e | e in entries :: !(e.verified && (primaryOnly ==> e.primary))
            case Some(email) => exists e :: e in entries && e.email == email && e.verified && (primaryOnly ==> e.primary)
  {
    if entries != [] {
      FirstVerifiedIsVerified(entries[1..], primaryOnly);
      assert entries == [entries[0]] + entries[1..];
      if FirstVerified(entries, primaryOnly).Some? && !(entries[0].verified && (primaryOnly ==> entries[0].primary)) {
        var e :| e in entries[1..] && e.email == FirstVerified(entries, primaryOnly).value && e.verified && (primaryOnly ==> e.primary);
        assert e in entries;
      }
    }
  }

  /** A secondary address is a verified one, and the primary one unless that is unverified. */
  lemma SecondaryAddressIsVerified(entries: seq<EmailEntry>)
    ensures var email := PrimaryEmail(Some(EmailList(entries)));
            && (email != "" ==> exists e :: e in entries && e.email == email && e.verified
                                            && (e.primary || forall x | x in entries && x.primary :: !x.verified))
            && (email == "" ==> forall e | e in entries && e.verified :: (exists x :: x in entries && x.verified && x.email == ""))
  {
    FirstVerifiedIsVerified(entries, true);
    FirstVerifiedIsVerified(entries, false);
  }

  /** The identity made of a profile, for a provider with its preset merged in. */
  ghost predicate ClaimsFrom(c: AuthClaims, p: IdentityProvider, profile: map<string, Value>, email: string) {
    var m := p.mapping;
    var subject := StringOf(Lookup(profile, m.subject));
    && subject != "" && c.subject == SubjectKey(p.id, subject) && c.upstreamSubject == subject && c.originalIDP == p.id
    && c.email == email && c.preferredUser == StringOf(Lookup(profile, m.username))
    && c.name == Either(StringOf(Lookup(profile, m.name)), Either(c.preferredUser, email))
    && c.groups == StringsAt(profile, m.groups)
    && c.roles == if StringsAt(profile, m.roles) == [] then ["user"] else StringsAt(profile, m.roles)
  }

  /** In the profile, what is under this path is this text. */
  ghost predicate Says(profile: map<string, Value>, path: string, text: string) {
    Lookup(profile, path) == Some(Str(text))
  }

  /**
   * Text is carried over as it is: an identity made of a profile with a text for its subject has exactly that text, behind the
   * provider's id, and so with user name, name and address. Two users of one provider are one exactly when their texts are.
   */
  lemma TextIsCarriedOver(c: AuthClaims, d: AuthClaims, p: IdentityProvider, f: map<string, Value>, g: map<string, Value>, subject: string,
                          other: string, accessToken: string, get: Fetch)
    requires ClaimsFrom(c, p, f, EmailOf(p, f, accessToken, get)) && Says(f, p.mapping.subject, subject)
    requires ClaimsFrom(d, p, g, EmailOf(p, g, accessToken, get)) && Says(g, p.mapping.subject, other)
    ensures c.upstreamSubject == subject && c.subject == p.id + "_" + subject
    ensures c.subject == d.subject <==> subject == other
    ensures forall t | Says(f, p.mapping.username, t) :: c.preferredUser == t
    ensures forall t | Says(f, p.mapping.name, t) && t != "" :: c.name == t
    ensures forall t | Says(f, p.mapping.email, t) && t != "" :: c.email == t
  {
    if c.subject == d.subject {
      SameProviderSubjects(p.id, subject, other);
    }
  }

  /** The address in the profile, or else the secondary one. */
  function EmailOf(p: IdentityProvider, profile: map<string, Value>, accessToken: string, get: Fetch): string {
    Either(StringOf(Lookup(profile, p.mapping.email)), if p.emailsURL != "" then PrimaryEmail(get(p.emailsURL, accessToken)) else "")
  }

  /** The provider itself says that the address is not verified: by a flag, or by the text of one. */
  predicate Disowned(p: IdentityProvider, profile: map<string, Value>, email: string) {
    var verified := Lookup(profile, p.mapping.emailVerified);
    && email != "" && p.mapping.emailVerified != ""
    && (verified == Some(Flag(false))
        || (verified.Some? && verified.value.Str? && verified.value.text in {"0", "f", "F", "FALSE", "false", "False"}))
  }

  predicate ProfileCame(p: IdentityProvider, accessToken: string, get: Fetch) {
    get(p.userInfoURL, accessToken).Some? && get(p.userInfoURL, accessToken).value.ObjectBody?
  }

  /**
   * fetchUpstreamClaims: an identity is made exactly when the provider is configured, its profile came and names a subject,
   * and the address is not one the provider calls unverified. The subject is keyed by provider, the name falls back to the
   * user name and then to the address, and nobody is left without a role.
   */
  method FetchUpstreamClaims(presets: Presets, provider: IdentityProvider, accessToken: string, get: Fetch) returns (result: Result<AuthClaims, ProfileError>)
    ensures var p := EffectiveProvider(presets, provider);
            && (result == Err(NoUserInfoURL) <==> p.userInfoURL == "")
            && (result == Err(NoSubjectMapping) <==> p.userInfoURL != "" && p.mapping.subject == "")
            && (p.userInfoURL != "" && p.mapping.subject != "" ==> (result == Err(FetchFailed) <==> !ProfileCame(p, accessToken, get)))
            && (p.userInfoURL != "" && p.mapping.subject != "" && ProfileCame(p, accessToken, get) ==>
                  var profile := get(p.userInfoURL, accessToken).value.fields;
                  var email := EmailOf(p, profile, accessToken, get);
                  && (result == Err(NoSubject) <==> StringOf(Lookup(profile, p.mapping.subject)) == "")
                  && (result.Ok? <==> StringOf(Lookup(profile, p.mapping.subject)) != "" && !Disowned(p, profile, email))
                  && (result.Ok? ==> ClaimsFrom(result.value, p, profile, email)))
  {
    var p := EffectiveProvider(presets, provider);
    if p.userInfoURL == "" {
      return Err(NoUserInfoURL);
    }
    var m := p.mapping;
    if m.subject == "" {
      return Err(NoSubjectMapping);
    }
    var answer := get(p.userInfoURL, accessToken);
    if answer.None? || !answer.value.ObjectBody? {
      return Err(FetchFailed);
    }
    var profile := answer.value.fields;
    var subject := StringField(profile, m.subject);
    if subject == "" {
      return Err(NoSubject);
    }
    var email := StringField(profile, m.email);
    if email == "" && p.emailsURL != "" {
      email := FetchPrimaryEmail(get(p.emailsURL, accessToken));
    }
    if email != "" && m.emailVerified != "" {
      var verified := BoolField(profile, m.emailVerified);
      if verified == Some(false) {
        return Err(UnverifiedEmail);
      }
    }
    var claims := Normalize(p, profile, subject, email);
    return Ok(claims);
  }

  method Normalize(p: IdentityProvider, profile: map<string, Value>, subject: string, email: string) returns (c: AuthClaims)
    requires subject == StringOf(Lookup(profile, p.mapping.subject)) && subject != ""
    ensures ClaimsFrom(c, p, profile, email)
  {
    var m := p.mapping;
    var username := StringField(profile, m.username);
    var name := StringField(profile, m.name);
    if name == "" {
      name := if username != "" then username else email;
    }
    var groups := StringsField(profile, m.groups);
    var roles := StringsField(profile, m.roles);
    if |roles| == 0 {
      roles := ["user"];
    }
    return AuthClaims(SubjectKey(p.id, subject), "", [], "", "", "", "", "", "", "", p.id, subject, email, name, username,
                      roles, groups, 0, 0, 0, "");
  }
}
