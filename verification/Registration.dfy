/** The registration service: validation of form input and the rows it writes. */
module Registration {
  import opened Prelude
  import opened Models
  import Base64
  import Forms
  import Oauth
  import Text

  datatype ClientInput = ClientInput(
    clientType: string,
    redirectURIs: seq<string>,
    postLogoutRedirectURIs: seq<string>,
    allowedOrigins: seq<string>,
    environment: string,
    tokenEndpointAuthMethod: string)

  datatype AppInput = AppInput(name: string, description: string, firstParty: bool, allowedScopes: seq<string>)

  datatype Problem =
    | Unknown
    | Missing
    | BadURI(reason: Oauth.UriError)
    | BadOrigin
    | UnsupportedScope(scope: string)
    | RandomFailed

  /** Form fields; a client's field appears in the registration form under its own prefix. */
  datatype Field =
    | Name | AllowedScopes
    | ClientType | Environment | RedirectURIs | PostLogoutRedirectURIs | AllowedOrigins
    | ClientId | ClientSecret
    | OfClient(field: Field)

  type FieldErrors = map<Field, Problem>

  /** Collects one message per form field; the first one stays. */
  class ValidationError {
    var fields: FieldErrors

    constructor ()
      ensures fields == map[]
    {
      fields := map[];
    }

    method Add(field: Field, message: Problem)
      modifies this
      ensures fields == if field in old(fields) then old(fields) else old(fields)[field := message]
    {
      if field !in fields {
        fields := fields[field := message];
      }
    }
  }

  /** Copies a client's messages under their prefix; the order of the fields does not matter. */
  method AddClientErrors(verr: ValidationError, errors: FieldErrors)
    modifies verr
    ensures verr.fields.Keys == old(verr.fields).Keys + set f | f in errors :: OfClient(f)
  {
    var keys := errors.Keys;
    while keys != {}
      invariant keys <= errors.Keys
      invariant verr.fields.Keys == old(verr.fields).Keys + set f | f in errors.Keys - keys :: OfClient(f)
      decreases |keys|
    {
      var field :| field in keys;
      verr.Add(OfClient(field), errors[field]);
      keys := keys - {field};
    }
  }

  // Which input is refused, and where

  predicate AllURIsValid(parse: UrlParser, uris: seq<string>) {
    forall uri <- uris :: Oauth.ValidateRedirectURI(parse, uri) == None
  }

  predicate ValidOrigin(parse: UrlParser, raw: string) {
    match parse(raw)
    case None => false
    case Some(u) =>
      && u.isAbs && u.host != "" && (u.scheme == "https" || u.scheme == "http")
      && (u.path == "" || u.path == "/")
  }

  predicate AllOriginsValid(parse: UrlParser, origins: seq<string>) {
    forall origin <- origins :: ValidOrigin(parse, origin)
  }

  function NormalWord(s: string): string {
    Text.ToLower(Text.TrimSpace(s))
  }

  predicate IsClientType(s: string) {
    s == "confidential" || s == "public"
  }

  predicate IsEnvironment(s: string) {
    s == "local" || s == "staging" || s == "production"
  }

  function EnvironmentOf(input: ClientInput): string {
    if NormalWord(input.environment) == "" then "local" else NormalWord(input.environment)
  }

  /** The fields that are refused, each by its own condition. */
  function Refused(parse: UrlParser, input: ClientInput): set<Field> {
    (if IsClientType(NormalWord(input.clientType)) then {} else {ClientType})
    + (if IsEnvironment(EnvironmentOf(input)) then {} else {Environment})
    + RefusedLists(parse, input)
  }

  function RefusedLists(parse: UrlParser, input: ClientInput): set<Field> {
    (if Forms.AllFields(input.redirectURIs) == [] || !AllURIsValid(parse, Forms.AllFields(input.redirectURIs))
     then {RedirectURIs} else {})
    + (if AllURIsValid(parse, Forms.AllFields(input.postLogoutRedirectURIs)) then {} else {PostLogoutRedirectURIs})
    + (if AllOriginsValid(parse, Forms.AllFields(input.allowedOrigins)) then {} else {AllowedOrigins})
  }

  predicate Acceptable(parse: UrlParser, input: ClientInput) {
    && IsClientType(NormalWord(input.clientType))
    && IsEnvironment(EnvironmentOf(input))
    && Forms.AllFields(input.redirectURIs) != []
    && AllURIsValid(parse, Forms.AllFields(input.redirectURIs))
    && AllURIsValid(parse, Forms.AllFields(input.postLogoutRedirectURIs))
    && AllOriginsValid(parse, Forms.AllFields(input.allowedOrigins))
  }

  lemma NothingRefused(parse: UrlParser, input: ClientInput)
    ensures Refused(parse, input) == {} <==> Acceptable(parse, input)
  {
  }

  method ValidateURIs(parse: UrlParser, verr: ValidationError, field: Field, uris: seq<string>)
    modifies verr
    ensures AllURIsValid(parse, uris) ==> verr.fields == old(verr.fields)
    ensures !AllURIsValid(parse, uris) ==> verr.fields.Keys == old(verr.fields).Keys + {field}
    ensures forall f <- old(verr.fields) :: f in verr.fields && verr.fields[f] == old(verr.fields)[f]
  {
    for i := 0 to |uris|
      invariant verr.fields == old(verr.fields)
      invariant AllURIsValid(parse, uris[..i])
    {
      match Oauth.ValidateRedirectURI(parse, uris[i])
      case Some(e) =>
        assert uris[i] in uris;
        verr.Add(field, BadURI(e));
        return;
      case None =>
        assert uris[..i + 1] == uris[..i] + [uris[i]];
    }
    assert uris[..|uris|] == uris;
  }

  // Building a client row

  function HexDigit(x: int): char
    requires 0 <= x < 16
  {
    if x < 10 then ('0' as int + x) as char else ('a' as int + x - 10) as char
  }

  function Hex(b: Bytes): string {
    if b == [] then "" else [HexDigit(b[0] / 16), HexDigit(b[0] % 16)] + Hex(b[1..])
  }

  /** The row for acceptable input; the application id is set by the caller. */
  function ClientRow(sha: Digest, input: ClientInput, randomId: Bytes, secret: string): Client {
    var clientType := NormalWord(input.clientType);
    var given := Text.TrimSpace(input.tokenEndpointAuthMethod);
    Client(
      applicationId := 0,
      clientId := Hex(randomId),
      secretHash := if clientType == "confidential" then sha(secret) else [],
      clientType := clientType,
      tokenEndpointAuthMethod :=
        if clientType == "public" then "none" else if given == "" then "client_secret_basic" else given,
      redirectURIs := Forms.AllFields(input.redirectURIs),
      postLogoutRedirectURIs := Forms.AllFields(input.postLogoutRedirectURIs),
      allowedOrigins := Forms.AllFields(input.allowedOrigins),
      environment := EnvironmentOf(input))
  }

  function SecretFor(input: ClientInput, randomSecret: Bytes): string {
    if NormalWord(input.clientType) == "confidential" then Oauth.FromRandom(randomSecret) else ""
  }

  method ValidateOrigins(parse: UrlParser, verr: ValidationError, origins: seq<string>)
    modifies verr
    ensures AllOriginsValid(parse, origins) ==> verr.fields == old(verr.fields)
    ensures !AllOriginsValid(parse, origins) ==> verr.fields.Keys == old(verr.fields).Keys + {AllowedOrigins}
  {
    for i := 0 to |origins|
      invariant AllOriginsValid(parse, origins[..i]) && verr.fields == old(verr.fields)
    {
      if !ValidOrigin(parse, origins[i]) {
        assert origins[i] in origins;
        verr.Add(AllowedOrigins, BadOrigin);
        return;
      }
      assert origins[..i + 1] == origins[..i] + [origins[i]];
    }
    assert origins[..|origins|] == origins;
  }

  /** The lists of `buildClient`: tokenised, then validated into `verr`. */
  method CheckLists(parse: UrlParser, verr: ValidationError, input: ClientInput)
    returns (redirectURIs: seq<string>, postLogoutURIs: seq<string>, origins: seq<string>)
    modifies verr
    ensures redirectURIs == Forms.AllFields(input.redirectURIs)
    ensures postLogoutURIs == Forms.AllFields(input.postLogoutRedirectURIs)
    ensures origins == Forms.AllFields(input.allowedOrigins)
    ensures verr.fields.Keys == old(verr.fields).Keys + RefusedLists(parse, input)
  {
    redirectURIs := Forms.NormalizeList(input.redirectURIs);
    if |redirectURIs| == 0 {
      verr.Add(RedirectURIs, Missing);
    }
    ValidateURIs(parse, verr, RedirectURIs, redirectURIs);
    postLogoutURIs := Forms.NormalizeList(input.postLogoutRedirectURIs);
    ValidateURIs(parse, verr, PostLogoutRedirectURIs, postLogoutURIs);
    origins := Forms.NormalizeList(input.allowedOrigins);
    ValidateOrigins(parse, verr, origins);
  }

  method BuildClient(parse: UrlParser, sha: Digest, input: ClientInput,
                     randomId: Option<Bytes>, randomSecret: Option<Bytes>)
    returns (r: Result<(Client, string), FieldErrors>)
    ensures !Acceptable(parse, input) ==> r.Err? && r.error.Keys == Refused(parse, input)
    ensures Acceptable(parse, input) ==>
              (r.Ok? <==> randomId.Some? && (NormalWord(input.clientType) == "confidential" ==> randomSecret.Some?))
    ensures r.Ok? ==>
              && randomId.Some?
              && r.value.1 == (if randomSecret.Some? then SecretFor(input, randomSecret.value) else "")
              && r.value.0 == ClientRow(sha, input, randomId.value, r.value.1)
  {
    var verr := new ValidationError();
    var clientType := Text.ToLower(Text.TrimSpace(input.clientType));
    if !IsClientType(clientType) {
      verr.Add(ClientType, Unknown);
    }
    var environment := Text.ToLower(Text.TrimSpace(input.environment));
    if environment == "" {
      environment := "local";
    }
    if !IsEnvironment(environment) {
      verr.Add(Environment, Unknown);
    }
    var redirectURIs, postLogoutURIs, origins := CheckLists(parse, verr, input);
    NothingRefused(parse, input);
    assert verr.fields.Keys == Refused(parse, input);
    if verr.fields != map[] {
      return Err(verr.fields);
    }

    var authMethod := Text.TrimSpace(input.tokenEndpointAuthMethod);
    if authMethod == "" {
      authMethod := "none";
      if clientType == "confidential" {
        authMethod := "client_secret_basic";
      }
    }
    if clientType == "public" {
      authMethod := "none";
    }

    if randomId == None {
      return Err(map[ClientId := RandomFailed]);
    }

    var secret := "";
    var secretHash: Bytes := [];
    if clientType == "confidential" {
      if randomSecret == None {
        return Err(map[ClientSecret := RandomFailed]);
      }
      secret := Oauth.FromRandom(randomSecret.value);
      secretHash := sha(secret);
    }

    var client := Client(0, Hex(randomId.value), secretHash, clientType, authMethod,
                         redirectURIs, postLogoutURIs, origins, environment);
    return Ok((client, secret));
  }

  // What the authorization protocol relies on

  /** These URIs parse as they are, as safe targets. */
  ghost predicate AllSafe(parse: UrlParser, uris: seq<string>) {
    forall uri <- uris :: Text.IsWord(uri) && parse(uri).Some? && Oauth.IsSafeTarget(uri, parse(uri).value)
  }

  lemma {:induction false} AllFieldsAreWords(values: seq<string>)
    ensures Text.AreWords(Forms.AllFields(values))
  {
    if values != [] {
      AllFieldsAreWords(values[..|values| - 1]);
      Text.FieldsAreWords(values[|values| - 1]);
    }
  }

  lemma ValidURIsAreSafe(parse: UrlParser, values: seq<string>)
    ensures AllURIsValid(parse, Forms.AllFields(values)) <==> AllSafe(parse, Forms.AllFields(values))
  {
    var uris := Forms.AllFields(values);
    AllFieldsAreWords(values);
    forall uri | uri in uris
      ensures Oauth.ValidateRedirectURI(parse, uri) == None <==> parse(uri).Some? && Oauth.IsSafeTarget(uri, parse(uri).value)
    {
      Forms.WordIsTrimmed(uri);
      Oauth.RedirectURIAcceptedExactly(parse, uri);
    }
  }

  /** The stored string is the very string that was validated: trimming it again changes nothing. */
  lemma AcceptedRedirectsParse(parse: UrlParser, sha: Digest, input: ClientInput, randomId: Bytes, secret: string)
    requires Acceptable(parse, input)
    ensures var row := ClientRow(sha, input, randomId, secret);
            AllSafe(parse, row.redirectURIs) && AllSafe(parse, row.postLogoutRedirectURIs) && row.redirectURIs != []
  {
    ValidURIsAreSafe(parse, input.redirectURIs);
    ValidURIsAreSafe(parse, input.postLogoutRedirectURIs);
  }

  /** From the text area of the form: the registered URIs are its white-space tokens. */
  lemma RegisteredFromForm(sha: Digest, input: ClientInput, field: string, randomId: Bytes, secret: string)
    requires input.redirectURIs == Forms.Lines(field)
    ensures ClientRow(sha, input, randomId, secret).redirectURIs == Text.Fields(field)
  {
    Forms.TwoStagesAreOnePass(field);
  }

  /** A client is confidential exactly when its row holds a secret hash. */
  lemma SecretHashMarksConfidential(parse: UrlParser, sha: Digest, input: ClientInput, randomId: Bytes, secret: string)
    requires Acceptable(parse, input)
    ensures var c := ClientRow(sha, input, randomId, secret);
            && (Oauth.IsConfidential(c) <==> |c.secretHash| == 32)
            && (c.clientType == "public" <==> !Oauth.IsConfidential(c))
            && (Oauth.IsConfidential(c) && secret != "" ==> Oauth.ValidateClientSecret(sha, c, secret))
  {
  }

  /** Public clients never authenticate; a confidential one does with the header unless its form names another method. */
  lemma DefaultMethodIsBasic(sha: Digest, input: ClientInput, randomId: Bytes, secret: string)
    requires Text.ToLower(Text.TrimSpace(input.clientType)) in ["confidential", "public"]
    ensures var c, named := ClientRow(sha, input, randomId, secret), Text.TrimSpace(input.tokenEndpointAuthMethod);
            && c.clientType in ["confidential", "public"]
            && (c.clientType == "public" ==> c.tokenEndpointAuthMethod == "none" && c.secretHash == [])
            && (c.clientType == "confidential" ==> c.secretHash == sha(secret))
            && (c.clientType == "confidential" && named == "" ==> c.tokenEndpointAuthMethod == "client_secret_basic")
            && (c.clientType == "confidential" && named != "" ==> c.tokenEndpointAuthMethod == named)
  {
  }

  /** A form without an environment registers for the local one. */
  lemma DefaultEnvironmentIsLocal(sha: Digest, input: ClientInput, randomId: Bytes, secret: string)
    ensures var c, named := ClientRow(sha, input, randomId, secret), Text.ToLower(Text.TrimSpace(input.environment));
            (named == "" ==> c.environment == "local") && (named != "" ==> c.environment == named)
  {
  }

  const HEX_DIGITS := "0123456789abcdef"

  /** A client id spells its random bytes, the high half of each first. */
  lemma {:induction false} HexSpells(b: Bytes, i: nat)
    requires i < |b|
    ensures |Hex(b)| == 2 * |b|
    ensures Hex(b)[2 * i] == HEX_DIGITS[b[i] / 16] && Hex(b)[2 * i + 1] == HEX_DIGITS[b[i] % 16]
  {
    HexDigitSpells(b[0] / 16);
    HexDigitSpells(b[0] % 16);
    if |b| > 1 {
      HexSpells(b[1..], if i > 0 then i - 1 else 0);
    }
  }

  lemma HexDigitSpells(x: int)
    requires 0 <= x < 16
    ensures HexDigit(x) == HEX_DIGITS[x]
  {
  }

  // The tables of applications and clients

  datatype Registry = Registry(apps: seq<Application>, clients: seq<Client>)

  ghost predicate ClientOk(parse: UrlParser, r: Registry, c: Client) {
    && c.applicationId < |r.apps|
    && AllSafe(parse, c.redirectURIs)
    && HasCredential(c)
  }

  /** A confidential client has a digest to compare with, and a public one has none. */
  predicate HasCredential(c: Client) {
    || (c.clientType == "public" && c.tokenEndpointAuthMethod == "none" && c.secretHash == [])
    || (c.clientType == "confidential" && |c.secretHash| == 32
        && c.tokenEndpointAuthMethod in ["client_secret_basic", "client_secret_post", "none"])
  }

  ghost predicate Wellformed(parse: UrlParser, r: Registry) {
    && (forall i :: 0 <= i < |r.apps| ==> Forms.InNormalForm(r.apps[i].allowedScopes))
    && (forall i :: 0 <= i < |r.clients| ==> ClientOk(parse, r, r.clients[i]))
    && (forall i, j :: 0 <= i < j < |r.clients| ==> r.clients[i].clientId != r.clients[j].clientId)
  }

  /** `GetByClientID`: the row with this client id, if there is one. */
  function FindClient(clients: seq<Client>, clientId: string): (r: Option<nat>)
    ensures r.Some? ==> r.value < |clients| && clients[r.value].clientId == clientId
    ensures r.None? ==> forall i :: 0 <= i < |clients| ==> clients[i].clientId != clientId
  {
    if clients == [] then None
    else
      var n := |clients| - 1;
      var earlier := FindClient(clients[..n], clientId);
      if earlier.Some? then earlier else if clients[n].clientId == clientId then Some(n) else None
  }

  /** The table's own checks: unique client id, known authentication method. */
  predicate Insertable(clients: seq<Client>, c: Client) {
    && FindClient(clients, c.clientId) == None
    && c.tokenEndpointAuthMethod in ["client_secret_basic", "client_secret_post", "none"]
  }

  function AppRow(input: AppInput): Application {
    Application(Text.TrimSpace(input.name), Text.TrimSpace(input.description), input.firstParty,
                Forms.Dedup(Forms.NamedScopes(input.allowedScopes)))
  }

  predicate AcceptableApp(input: AppInput) {
    Text.TrimSpace(input.name) != "" && Forms.AllSupported(Forms.NamedScopes(input.allowedScopes))
  }

  /** One transaction: both rows or neither. */
  function AfterRegisterApp(parse: UrlParser, sha: Digest, r: Registry, app: AppInput, input: ClientInput,
                       randomId: Bytes, randomSecret: Bytes): Option<Registry>
  {
    var row := ClientRow(sha, input, randomId, SecretFor(input, randomSecret)).(applicationId := |r.apps|);
    if AcceptableApp(app) && Acceptable(parse, input) && Insertable(r.clients, row)
    then Some(Registry(r.apps + [AppRow(app)], r.clients + [row]))
    else None
  }

  function AfterCreateClient(parse: UrlParser, sha: Digest, r: Registry, id: nat, input: ClientInput,
                        randomId: Bytes, randomSecret: Bytes): Option<Registry>
  {
    var row := ClientRow(sha, input, randomId, SecretFor(input, randomSecret)).(applicationId := id);
    if id < |r.apps| && Acceptable(parse, input) && Insertable(r.clients, row)
    then Some(r.(clients := r.clients + [row]))
    else None
  }

  function AfterUpdateApp(r: Registry, id: nat, input: AppInput): Option<Registry> {
    if id < |r.apps| && AcceptableApp(input) then Some(r.(apps := r.apps[id := AppRow(input)])) else None
  }

  lemma InsertClientKeeps(parse: UrlParser, r: Registry, c: Client)
    requires Wellformed(parse, r) && ClientOk(parse, r, c) && FindClient(r.clients, c.clientId) == None
    ensures Wellformed(parse, r.(clients := r.clients + [c]))
  {
  }

  lemma InsertAppKeeps(parse: UrlParser, r: Registry, app: Application)
    requires Wellformed(parse, r) && Forms.InNormalForm(app.allowedScopes)
    ensures Wellformed(parse, r.(apps := r.apps + [app]))
  {
  }

  lemma AfterRegisterAppKeeps(parse: UrlParser, sha: Digest, r: Registry, app: AppInput, input: ClientInput,
                              randomId: Bytes, randomSecret: Bytes)
    requires Wellformed(parse, r)
    requires AfterRegisterApp(parse, sha, r, app, input, randomId, randomSecret).Some?
    ensures Wellformed(parse, AfterRegisterApp(parse, sha, r, app, input, randomId, randomSecret).value)
  {
    var row := ClientRow(sha, input, randomId, SecretFor(input, randomSecret)).(applicationId := |r.apps|);
    Forms.NormalizedIsNormal(app.allowedScopes);
    InsertAppKeeps(parse, r, AppRow(app));
    AcceptedRedirectsParse(parse, sha, input, randomId, SecretFor(input, randomSecret));
    DefaultMethodIsBasic(sha, input, randomId, SecretFor(input, randomSecret));
    InsertClientKeeps(parse, r.(apps := r.apps + [AppRow(app)]), row);
  }

  lemma AfterCreateClientKeeps(parse: UrlParser, sha: Digest, r: Registry, id: nat, input: ClientInput,
                               randomId: Bytes, randomSecret: Bytes)
    requires Wellformed(parse, r)
    requires AfterCreateClient(parse, sha, r, id, input, randomId, randomSecret).Some?
    ensures Wellformed(parse, AfterCreateClient(parse, sha, r, id, input, randomId, randomSecret).value)
  {
    var row := ClientRow(sha, input, randomId, SecretFor(input, randomSecret)).(applicationId := id);
    AcceptedRedirectsParse(parse, sha, input, randomId, SecretFor(input, randomSecret));
    DefaultMethodIsBasic(sha, input, randomId, SecretFor(input, randomSecret));
    InsertClientKeeps(parse, r, row);
  }

  lemma AfterUpdateAppKeeps(parse: UrlParser, r: Registry, id: nat, input: AppInput)
    requires Wellformed(parse, r) && AfterUpdateApp(r, id, input).Some?
    ensures Wellformed(parse, AfterUpdateApp(r, id, input).value)
  {
    Forms.NormalizedIsNormal(input.allowedScopes);
  }

  // What is accepted

  /** A name, and scopes among the three, in any case. */
  predicate IsPlausible(input: AppInput) {
    && Text.TrimSpace(input.name) != ""
    && forall token <- Forms.AllFields(input.allowedScopes) :: Text.ToLower(token) in ["openid", "profile", "email"]
  }

  /** An edit is accepted exactly when it is plausible, and stored with its scopes in lower case. */
  lemma AppAcceptedExactly(r: Registry, id: nat, input: AppInput)
    ensures AcceptableApp(input) <==> IsPlausible(input)
    ensures AfterUpdateApp(r, id, input).Some? <==> id < |r.apps| && IsPlausible(input)
    ensures AfterUpdateApp(r, id, input).Some? ==>
              var app := AfterUpdateApp(r, id, input).value.apps[id];
              && app.name == Text.TrimSpace(input.name) && app.description == Text.TrimSpace(input.description)
              && app.firstParty == input.firstParty
              && forall scope :: scope in app.allowedScopes <==>
                                   exists token <- Forms.AllFields(input.allowedScopes) :: Text.ToLower(token) == scope
  {
    var tokens, named := Forms.AllFields(input.allowedScopes), Forms.NamedScopes(input.allowedScopes);
    assert |named| == |tokens| && forall i :: 0 <= i < |tokens| ==> named[i] == Text.ToLower(tokens[i]);
    forall scope ensures scope in named <==> exists token <- tokens :: Text.ToLower(token) == scope {
      if scope in named {
        var i :| 0 <= i < |named| && named[i] == scope;
        assert tokens[i] in tokens;
      }
    }
    Forms.DedupElements(named);
    SupportedExactly(tokens, named);
  }

  lemma SupportedExactly(tokens: seq<string>, named: seq<string>)
    requires |named| == |tokens| && forall i :: 0 <= i < |tokens| ==> named[i] == Text.ToLower(tokens[i])
    ensures Forms.AllSupported(named) <==> forall token <- tokens :: Text.ToLower(token) in ["openid", "profile", "email"]
  {
    if Forms.AllSupported(named) {
      forall token | token in tokens ensures Text.ToLower(token) in ["openid", "profile", "email"] {
        var i :| 0 <= i < |tokens| && tokens[i] == token;
        assert named[i] in named;
      }
    } else {
      var scope :| scope in named && !Oauth.IsSupportedScope(scope);
      var i :| 0 <= i < |named| && named[i] == scope;
      assert tokens[i] in tokens;
    }
  }

  /** An origin: a scheme and a host, and no path but the root. */
  predicate IsOrigin(u: ParsedUrl) {
    u.isAbs && u.host != "" && u.scheme in ["https", "http"] && u.path in ["", "/"]
  }

  lemma OriginsValidExactly(parse: UrlParser, origins: seq<string>)
    ensures AllOriginsValid(parse, origins) <==> forall origin <- origins :: parse(origin).Some? && IsOrigin(parse(origin).value)
  {
    forall origin | origin in origins
      ensures ValidOrigin(parse, origin) <==> parse(origin).Some? && IsOrigin(parse(origin).value)
    {
    }
  }

  /** Known words, safe URIs, at least one of them to redirect to, and real origins. */
  ghost predicate IsSound(parse: UrlParser, input: ClientInput) {
    && NormalWord(input.clientType) in ["confidential", "public"]
    && NormalWord(input.environment) in ["", "local", "staging", "production"]
    && Forms.AllFields(input.redirectURIs) != [] && AllSafe(parse, Forms.AllFields(input.redirectURIs))
    && AllSafe(parse, Forms.AllFields(input.postLogoutRedirectURIs))
    && forall origin <- Forms.AllFields(input.allowedOrigins) :: parse(origin).Some? && IsOrigin(parse(origin).value)
  }

  lemma AcceptableExactly(parse: UrlParser, input: ClientInput)
    ensures Acceptable(parse, input) <==> IsSound(parse, input)
  {
    ValidURIsAreSafe(parse, input.redirectURIs);
    ValidURIsAreSafe(parse, input.postLogoutRedirectURIs);
    OriginsValidExactly(parse, Forms.AllFields(input.allowedOrigins));
  }

  lemma InsertableExactly(clients: seq<Client>, c: Client)
    ensures Insertable(clients, c) <==>
            && (forall d <- clients :: d.clientId != c.clientId)
            && c.tokenEndpointAuthMethod in ["client_secret_basic", "client_secret_post", "none"]
  {
    var found := FindClient(clients, c.clientId);
    if found.Some? {
      assert clients[found.value] in clients;
    }
  }

  /** Sound, with a known method if it has a secret, and with an id not yet taken. */
  ghost predicate IsWelcome(parse: UrlParser, clients: seq<Client>, input: ClientInput, randomId: Bytes) {
    && IsSound(parse, input)
    && (NormalWord(input.clientType) == "confidential" ==>
          Text.TrimSpace(input.tokenEndpointAuthMethod) in ["", "client_secret_basic", "client_secret_post", "none"])
    && forall c <- clients :: c.clientId != Hex(randomId)
  }

  /** A client is accepted exactly when it is welcome. */
  lemma ClientAcceptedExactly(parse: UrlParser, sha: Digest, r: Registry, id: nat, input: ClientInput,
                              randomId: Bytes, randomSecret: Bytes)
    ensures AfterCreateClient(parse, sha, r, id, input, randomId, randomSecret).Some? <==>
            id < |r.apps| && IsWelcome(parse, r.clients, input, randomId)
  {
    var row := ClientRow(sha, input, randomId, SecretFor(input, randomSecret)).(applicationId := id);
    AcceptableExactly(parse, input);
    InsertableExactly(r.clients, row);
    if IsSound(parse, input) {
      DefaultMethodIsBasic(sha, input, randomId, SecretFor(input, randomSecret));
    }
  }

  /**
    The new row is a confidential client's exactly when the form says so, and then
    what is printed of the random bytes is its secret.
  */
  lemma RegisteredSecretIsRandom(parse: UrlParser, sha: Digest, r: Registry, id: nat, input: ClientInput,
                                 randomId: Bytes, randomSecret: Bytes)
    requires AfterCreateClient(parse, sha, r, id, input, randomId, randomSecret).Some?
    ensures var after := AfterCreateClient(parse, sha, r, id, input, randomId, randomSecret).value;
            var confidential, secret := NormalWord(input.clientType) == "confidential", Base64.Encode(Base64.Url, randomSecret);
            && |after.clients| == |r.clients| + 1 && after.clients[..|r.clients|] == r.clients && after.apps == r.apps
            && var c := after.clients[|r.clients|];
               && c.applicationId == id && c.clientId == Hex(randomId)
               && (c.clientType == "confidential" <==> confidential)
               && SecretFor(input, randomSecret) == (if confidential then secret else "")
               && c.secretHash == (if confidential then sha(secret) else [])
  {
  }

  /** And both at once exactly when each would be. */
  lemma BothAcceptedExactly(parse: UrlParser, sha: Digest, r: Registry, app: AppInput, input: ClientInput,
                            randomId: Bytes, randomSecret: Bytes)
    ensures AfterRegisterApp(parse, sha, r, app, input, randomId, randomSecret).Some? <==>
            IsPlausible(app) && IsWelcome(parse, r.clients, input, randomId)
  {
    var row := ClientRow(sha, input, randomId, SecretFor(input, randomSecret)).(applicationId := |r.apps|);
    AppAcceptedExactly(r, 0, app);
    AcceptableExactly(parse, input);
    InsertableExactly(r.clients, row);
    if IsSound(parse, input) {
      DefaultMethodIsBasic(sha, input, randomId, SecretFor(input, randomSecret));
    }
  }

  datatype ServiceError = Invalid(fields: FieldErrors) | Database

  /** The service object over the two tables. */
  class AppService {
    const parse: UrlParser
    const sha: Digest
    var apps: seq<Application>
    var clients: seq<Client>

    function Tables(): Registry
      reads this
    {
      Registry(apps, clients)
    }

    constructor (parse: UrlParser, sha: Digest)
      ensures this.parse == parse && this.sha == sha && Tables() == Registry([], [])
      ensures Wellformed(parse, Tables())
    {
      this.parse, this.sha, this.apps, this.clients := parse, sha, [], [];
    }

    /** Normalised metadata, or the messages for the fields at fault. */
    method BuildApp(input: AppInput, verr: ValidationError) returns (row: Application)
      modifies verr
      ensures AcceptableApp(input) ==> verr.fields == old(verr.fields) && row == AppRow(input)
      ensures !AcceptableApp(input) ==> verr.fields != map[]
    {
      var name := Text.TrimSpace(input.name);
      if name == "" {
        verr.Add(Name, Missing);
        assert Name in verr.fields;
      }
      var scopes := Forms.NormalizeScopes(input.allowedScopes);
      if scopes.Err? {
        verr.Add(AllowedScopes, UnsupportedScope(scopes.error));
        assert AllowedScopes in verr.fields;
        return Application(name, "", false, []);
      }
      return Application(name, Text.TrimSpace(input.description), input.firstParty, scopes.value);
    }

    method RegisterApp(app: AppInput, input: ClientInput, randomId: Bytes, randomSecret: Bytes)
      returns (r: Result<string, ServiceError>)
      requires Wellformed(parse, Tables())
      modifies this`apps, this`clients
      ensures Wellformed(parse, Tables())
      ensures var next := AfterRegisterApp(parse, sha, old(Tables()), app, input, randomId, randomSecret);
              && (r.Ok? <==> next.Some?)
              && Tables() == (if next.Some? then next.value else old(Tables()))
              && (r.Ok? ==> r.value == SecretFor(input, randomSecret))
    {
      var verr := new ValidationError();
      var row := BuildApp(app, verr);
      var built := BuildClient(parse, sha, input, Some(randomId), Some(randomSecret));
      if built.Err? {
        AddClientErrors(verr, built.error);
        return Err(Invalid(verr.fields));
      }
      if verr.fields != map[] {
        return Err(Invalid(verr.fields));
      }
      var client := built.value.0.(applicationId := |apps|);
      if !Insertable(clients, client) {
        return Err(Database);
      }
      AfterRegisterAppKeeps(parse, sha, Tables(), app, input, randomId, randomSecret);
      apps, clients := apps + [row], clients + [client];
      return Ok(built.value.1);
    }

    method CreateClient(id: nat, input: ClientInput, randomId: Bytes, randomSecret: Bytes)
      returns (r: Result<string, ServiceError>)
      requires Wellformed(parse, Tables())
      modifies this`clients
      ensures Wellformed(parse, Tables())
      ensures var next := AfterCreateClient(parse, sha, old(Tables()), id, input, randomId, randomSecret);
              && (r.Ok? <==> next.Some?)
              && Tables() == (if next.Some? then next.value else old(Tables()))
    {
      var built := BuildClient(parse, sha, input, Some(randomId), Some(randomSecret));
      if built.Err? {
        return Err(Invalid(built.error));
      }
      var client := built.value.0.(applicationId := id);
      if id >= |apps| || !Insertable(clients, client) {
        return Err(Database);
      }
      AfterCreateClientKeeps(parse, sha, Tables(), id, input, randomId, randomSecret);
      clients := clients + [client];
      return Ok(built.value.1);
    }

    method UpdateApp(id: nat, input: AppInput) returns (r: Result<Application, ServiceError>)
      requires Wellformed(parse, Tables())
      modifies this`apps
      ensures Wellformed(parse, Tables())
      ensures var next := AfterUpdateApp(old(Tables()), id, input);
              && (r.Ok? <==> next.Some?)
              && Tables() == (if next.Some? then next.value else old(Tables()))
    {
      var verr := new ValidationError();
      var row := BuildApp(input, verr);
      if verr.fields != map[] {
        return Err(Invalid(verr.fields));
      }
      if id >= |apps| {
        return Err(Database);
      }
      AfterUpdateAppKeeps(parse, Tables(), id, input);
      apps := apps[id := row];
      return Ok(row);
    }
  }
}
