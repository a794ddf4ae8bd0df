/** Built-in defaults for well-known upstream providers (pkg/idp/claims.go). */
module Presets {
  import opened Wrappers
  import opened Text
  import opened Models

  datatype Preset = Preset(
    kind: string,
    authorizeURL: string,
    tokenURL: string,
    userInfoURL: string,
    emailsURL: string,
    scopes: seq<string>,
    mapping: ClaimMapping)

  /** Presets by lower-case provider name. */
  type Presets = map<string, Preset>

  const GOOGLE := Preset(
    "oidc", "https://accounts.google.com/o/oauth2/v2/auth", "https://oauth2.googleapis.com/token",
    "https://openidconnect.googleapis.com/v1/userinfo", "", ["openid", "email", "profile"],
    ClaimMapping("sub", "email", "email_verified", "name", "email", "", ""))

  const GITHUB := Preset(
    "oauth2", "https://github.com/login/oauth/authorize", "https://github.com/login/oauth/access_token",
    "https://api.github.com/user", "https://api.github.com/user/emails", ["read:user", "user:email"],
    ClaimMapping("id", "email", "", "name", "login", "", ""))

  const MICROSOFT := Preset(
    "oidc", "https://login.microsoftonline.com/common/oauth2/v2.0/authorize", "https://login.microsoftonline.com/common/oauth2/v2.0/token",
    "https://graph.microsoft.com/oidc/userinfo", "", ["openid", "email", "profile"],
    ClaimMapping("sub", "email", "", "name", "preferred_username", "", ""))

  const FACEBOOK := Preset(
    "oauth2", "https://www.facebook.com/v19.0/dialog/oauth", "https://graph.facebook.com/v19.0/oauth/access_token",
    "https://graph.facebook.com/me?fields=id,name,email", "", ["public_profile", "email"],
    ClaimMapping("id", "email", "", "name", "", "", ""))

  const INSTAGRAM := Preset(
    "oauth2", "https://api.instagram.com/oauth/authorize", "https://api.instagram.com/oauth/access_token",
    "https://graph.instagram.com/me?fields=id,username", "", ["user_profile"],
    ClaimMapping("id", "", "", "username", "username", "", ""))

  const PRESETS: Presets :=
    map["google" := GOOGLE, "github" := GITHUB, "microsoft" := MICROSOFT, "facebook" := FACEBOOK, "instagram" := INSTAGRAM]

  function PresetFor(presets: Presets, name: string): Option<Preset> {
    var key := ToLower(TrimSpace(name));
    if key in presets then Some(presets[key]) else None
  }

  /** The preset a provider record goes by: the one it names, or else the one its own id names. */
  function PresetOf(presets: Presets, p: IdentityProvider): Option<Preset> {
    PresetFor(presets, if p.preset == "" then p.id else p.preset)
  }

  function MergedMapping(m: ClaimMapping, d: ClaimMapping): ClaimMapping {
    ClaimMapping(Either(m.subject, d.subject), Either(m.email, d.email), Either(m.emailVerified, d.emailVerified), Either(m.name, d.name),
                 Either(m.username, d.username), Either(m.groups, d.groups), Either(m.roles, d.roles))
  }

  function EffectiveProvider(presets: Presets, p: IdentityProvider): IdentityProvider {
    match PresetOf(presets, p)
    case None => p
    case Some(d) =>
      p.(kind := Either(p.kind, d.kind), authorizeURL := Either(p.authorizeURL, d.authorizeURL), tokenURL := Either(p.tokenURL, d.tokenURL),
         userInfoURL := Either(p.userInfoURL, d.userInfoURL), emailsURL := Either(p.emailsURL, d.emailsURL),
         scopes := if p.scopes == [] then d.scopes else p.scopes, mapping := MergedMapping(p.mapping, d.mapping))
  }

  /** Everything a login needs to know of a provider besides its credentials. */
  predicate Complete(p: IdentityProvider) {
    p.authorizeURL != "" && p.tokenURL != "" && p.userInfoURL != "" && p.mapping.subject != ""
  }

  lemma PresetIsOneOf(name: string)
    requires PresetFor(PRESETS, name).Some?
    ensures PresetFor(PRESETS, name).value in {GOOGLE, GITHUB, MICROSOFT, FACEBOOK, INSTAGRAM}
    ensures ToLower(TrimSpace(name)) == "google" <==> PresetFor(PRESETS, name).value == GOOGLE
  {
    assert forall k | k in PRESETS :: PRESETS[k] in {GOOGLE, GITHUB, MICROSOFT, FACEBOOK, INSTAGRAM} && (k == "google" <==> PRESETS[k] == GOOGLE);
  }

  lemma PresetsAreComplete(name: string)
    requires PresetFor(PRESETS, name).Some?
    ensures var d := PresetFor(PRESETS, name).value; d.authorizeURL != "" && d.tokenURL != "" && d.userInfoURL != "" && d.mapping.subject != ""
  {
    PresetIsOneOf(name);
    assert forall d | d in {GOOGLE, GITHUB, MICROSOFT, FACEBOOK, INSTAGRAM} ::
      |d.authorizeURL| > 0 && |d.tokenURL| > 0 && |d.userInfoURL| > 0 && |d.mapping.subject| > 0;
  }

  /** OpenID providers identify users by `sub` and the others by `id`, and Google alone says which addresses are verified. */
  lemma PresetSubjects(name: string)
    requires PresetFor(PRESETS, name).Some?
    ensures var d := PresetFor(PRESETS, name).value;
            && ((d.kind == "oidc" && d.mapping.subject == "sub") || (d.kind == "oauth2" && d.mapping.subject == "id"))
            && d.mapping.emailVerified == if ToLower(TrimSpace(name)) == "google" then "email_verified" else ""
  {
    PresetIsOneOf(name);
  }

  /** A merged field is the record's own, unless that is empty. */
  predicate OwnFirst(own: string, preset: string, merged: string) {
    if own == "" then merged == preset else merged == own
  }

  /** What a record says itself stands, and the rest is its preset's; its identity, credentials and parameters stay its own. */
  lemma RecordComesFirst(presets: Presets, p: IdentityProvider, d: Preset)
    requires PresetOf(presets, p) == Some(d)
    ensures var e := EffectiveProvider(presets, p);
            && OwnFirst(p.kind, d.kind, e.kind) && OwnFirst(p.authorizeURL, d.authorizeURL, e.authorizeURL)
            && OwnFirst(p.tokenURL, d.tokenURL, e.tokenURL) && OwnFirst(p.userInfoURL, d.userInfoURL, e.userInfoURL)
            && OwnFirst(p.emailsURL, d.emailsURL, e.emailsURL) && e.scopes == (if |p.scopes| > 0 then p.scopes else d.scopes)
            && OwnFirst(p.mapping.subject, d.mapping.subject, e.mapping.subject)
            && OwnFirst(p.mapping.email, d.mapping.email, e.mapping.email)
            && OwnFirst(p.mapping.emailVerified, d.mapping.emailVerified, e.mapping.emailVerified)
            && OwnFirst(p.mapping.name, d.mapping.name, e.mapping.name)
            && OwnFirst(p.mapping.username, d.mapping.username, e.mapping.username)
            && OwnFirst(p.mapping.groups, d.mapping.groups, e.mapping.groups)
            && OwnFirst(p.mapping.roles, d.mapping.roles, e.mapping.roles)
            && e.id == p.id && e.clientID == p.clientID && e.clientSecret == p.clientSecret
            && e.extraAuthParams == p.extraAuthParams && e.enabled == p.enabled && e.preset == p.preset
  {
  }

  /** Whose defaults a record goes by is a matter of one name, up to letter case and surrounding space. */
  lemma PresetByName(p: IdentityProvider)
    ensures var name := ToLower(TrimSpace(if p.preset != "" then p.preset else p.id));
            PresetOf(PRESETS, p) == (if name == "google" then Some(GOOGLE)
                                     else if name == "github" then Some(GITHUB)
                                     else if name == "microsoft" then Some(MICROSOFT)
                                     else if name == "facebook" then Some(FACEBOOK)
                                     else if name == "instagram" then Some(INSTAGRAM)
                                     else None)
  {
  }

  /** A login can use a record exactly when it goes by one of the presets or says everything itself; merging twice changes nothing. */
  lemma RecordSufficesIff(p: IdentityProvider)
    ensures Complete(EffectiveProvider(PRESETS, p)) <==> PresetOf(PRESETS, p).Some? || Complete(p)
    ensures EffectiveProvider(PRESETS, EffectiveProvider(PRESETS, p)) == EffectiveProvider(PRESETS, p)
    ensures PresetOf(PRESETS, p).None? ==> EffectiveProvider(PRESETS, p) == p
  {
    if PresetOf(PRESETS, p).Some? {
      PresetsAreComplete(if p.preset == "" then p.id else p.preset);
    }
  }
}
