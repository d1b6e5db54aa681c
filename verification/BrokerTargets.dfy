/** What the start handler and the authorization handler read of one request target. */
module BrokerTargets {
  import opened Prelude
  import opened Broker
  import Oauth
  import Query

  lemma StoredIdOfTarget(s: Settings, t: Target)
    requires t.Valid()
    ensures StoredClientId(s, t.Uri()) == Query.Get(s.unescape, Query.BeforeFragment(t.rawQuery), "client_id")
  {
    Query.QueryOfTarget(t.path, t.rawQuery);
  }

  /**
    There is no `#`, or a whole part before it names a client, or the part it cuts
    names, as it is left, what that part and the rest name.
  */
  predicate ReadAlike(s: Settings, rawQuery: string) {
    || '#' !in rawQuery
    || Query.FirstNamed(s.unescape, Query.WholeParts(rawQuery), "client_id").Some?
    || Query.OrEmpty(Query.FirstNamed(s.unescape, [Query.CutPart(rawQuery)], "client_id"))
       == Query.OrEmpty(Query.FirstNamed(s.unescape, Query.RestOfParts(rawQuery), "client_id"))
  }

  /** The start and the authorization handler read the same client id from a target exactly under this condition. */
  lemma StoredIdIsRequested(s: Settings, t: Target)
    requires t.Valid()
    ensures StoredClientId(s, t.Uri()) == ParseRequest(s, t).clientId <==> ReadAlike(s, t.rawQuery)
  {
    StoredIdOfTarget(s, t);
    Query.SameWithoutFragment(s.unescape, t.rawQuery, "client_id");
  }

  // Targets that are read differently

  function RequestPairs(req: Oauth.AuthorizeRequest): seq<Query.Pair> {
    [Query.Pair("client_id", req.clientId), Query.Pair("redirect_uri", req.redirectURI),
     Query.Pair("response_type", req.responseType), Query.Pair("state", req.state), Query.Pair("scope", req.scope),
     Query.Pair("nonce", req.nonce), Query.Pair("code_challenge", req.codeChallenge),
     Query.Pair("code_challenge_method", req.codeChallengeMethod)]
  }

  /** All its parameters are text with nothing to escape. */
  predicate IsPlainRequest(req: Oauth.AuthorizeRequest) {
    && Query.IsPlain(req.clientId) && Query.IsPlain(req.redirectURI) && Query.IsPlain(req.responseType)
    && Query.IsPlain(req.state) && Query.IsPlain(req.scope) && Query.IsPlain(req.nonce)
    && Query.IsPlain(req.codeChallenge) && Query.IsPlain(req.codeChallengeMethod)
  }

  lemma NamesDiffer(req: Oauth.AuthorizeRequest, i: nat, j: nat)
    requires j < i < 8
    ensures RequestPairs(req)[j].name != RequestPairs(req)[i].name
  {
    assert "state"[1] != "scope"[1] && "state"[0] != "nonce"[0] && "scope"[0] != "nonce"[0];
  }

  lemma ShortNamesArePlain()
    ensures Query.IsPlain("client_id") && Query.IsPlain("redirect_uri") && Query.IsPlain("response_type")
  {
  }

  lemma WordsArePlain()
    ensures Query.IsPlain("state") && Query.IsPlain("scope") && Query.IsPlain("nonce")
  {
  }

  lemma LongNamesArePlain()
    ensures Query.IsPlain("code_challenge") && Query.IsPlain("code_challenge_method")
  {
  }

  lemma PairIsPlain(req: Oauth.AuthorizeRequest, i: nat)
    requires IsPlainRequest(req) && i < 8
    ensures Query.IsPlain(RequestPairs(req)[i].name) && Query.IsPlain(RequestPairs(req)[i].value)
  {
    ShortNamesArePlain();
    WordsArePlain();
    LongNamesArePlain();
  }

  lemma PairsArePlain(req: Oauth.AuthorizeRequest)
    requires IsPlainRequest(req)
    ensures Query.ArePlain(RequestPairs(req))
  {
    var pairs := RequestPairs(req);
    forall i: nat | i < 8 ensures Query.IsPlain(pairs[i].name) && Query.IsPlain(pairs[i].value) {
      PairIsPlain(req, i);
    }
    ByIndex(pairs);
  }

  lemma ByIndex(pairs: seq<Query.Pair>)
    requires forall i: nat :: i < |pairs| ==> Query.IsPlain(pairs[i].name) && Query.IsPlain(pairs[i].value)
    ensures Query.ArePlain(pairs)
  {
  }

  /** Requests `req`, and names `id` once the fragment is cut off. */
  function MisleadingTarget(id: string, req: Oauth.AuthorizeRequest): Target {
    Target("/authorize", Query.Misleading("client_id", id, RequestPairs(req)))
  }

  lemma MisleadingField(s: Settings, id: string, req: Oauth.AuthorizeRequest, i: nat)
    requires Query.FixesPlain(s.unescape) && Query.IsPlain(id) && IsPlainRequest(req) && i < 8
    ensures var raw, pair := MisleadingTarget(id, req).rawQuery, RequestPairs(req)[i];
            && Query.Get(s.unescape, raw, pair.name) == pair.value
            && Query.Get(s.unescape, Query.BeforeFragment(raw), "client_id") == id
  {
    PairsArePlain(req);
    forall j | 0 <= j < i ensures RequestPairs(req)[j].name != RequestPairs(req)[i].name {
      NamesDiffer(req, i, j);
    }
    assert Query.IsPlain("client_id");
    Query.FragmentChangesValue(s.unescape, "client_id", id, RequestPairs(req), i);
  }

  /** Any request of plain text can come in a target that names another client once it is stored. */
  lemma StoredIdMayDiffer(s: Settings, id: string, req: Oauth.AuthorizeRequest)
    requires Query.FixesPlain(s.unescape) && Query.IsPlain(id) && IsPlainRequest(req)
    ensures var t := MisleadingTarget(id, req);
            t.Valid() && ParseRequest(s, t) == req && StoredClientId(s, t.Uri()) == id
  {
    var t := MisleadingTarget(id, req);
    assert t.path == "/authorize";
    StoredIdOfTarget(s, t);
    forall i: nat | i < 8 ensures Query.Get(s.unescape, t.rawQuery, RequestPairs(req)[i].name) == RequestPairs(req)[i].value {
      MisleadingField(s, id, req, i);
    }
    MisleadingField(s, id, req, 0);
    EveryField(s, t, req);
  }

  lemma EveryField(s: Settings, t: Target, req: Oauth.AuthorizeRequest)
    requires forall i: nat :: i < 8 ==>
               Query.Get(s.unescape, t.rawQuery, RequestPairs(req)[i].name) == RequestPairs(req)[i].value
    ensures ParseRequest(s, t) == req
  {
    var pairs := RequestPairs(req);
    assert pairs[0].name == "client_id" && pairs[1].name == "redirect_uri" && pairs[2].name == "response_type";
    assert pairs[3].name == "state" && pairs[4].name == "scope" && pairs[5].name == "nonce";
    assert pairs[6].name == "code_challenge" && pairs[7].name == "code_challenge_method";
  }
}
