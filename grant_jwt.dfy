/** The token-request route: checks the shared secret, derives the room name
    from the email, and issues a LiveKit access token granting that room.
    Signing the token is a library call, passed in as `sign`; `None` from it
    stands for the library throwing, which the route does not catch. */
module GrantJwt {

  import opened Options

  const RoomPrefix: string := "voice_assistant_room_"
  /** What a template literal prints for a missing (`undefined`) email. */
  const Undefined: string := "undefined"
  const TokenTtl: string := "7d"
  const Unauthorized: string := "Unauthorized"

  /** The `VideoGrant` added to every token. */
  datatype VideoGrant = VideoGrant(
    room: string,
    roomJoin: bool,
    canPublish: bool,
    canPublishData: bool,
    canSubscribe: bool)

  /** An `AccessToken` before signing; `None` stands for `undefined`. */
  datatype AccessToken = AccessToken(
    apiKey: Option<string>,
    apiSecret: Option<string>,
    identity: Option<string>,
    name: Option<string>,
    ttl: string,
    grants: seq<VideoGrant>)

  datatype Body = ErrorBody(error: string) | JwtBody(jwt: string)

  datatype Response = Response(status: nat, body: Body)

  /** The route's response, or `None` when it threw instead of answering,
      together with the token it built, if any. */
  datatype Handled = Handled(response: Option<Response>, token: Option<AccessToken>)

  /** `s.replaceAll(from, to)` for single characters. */
  function ReplaceAll(s: string, from: char, to: char): (r: string)
    ensures |r| == |s|
    ensures forall i :: 0 <= i < |s| ==> r[i] == if s[i] == from then to else s[i]
  {
    if s == [] then [] else [if s[0] == from then to else s[0]] + ReplaceAll(s[1..], from, to)
  }

  /** The room of the participant with this email: the prefix, then the email
      with each `@` turned into `-`, or `undefined` when there is no email. */
  function RoomName(email: Option<string>): (r: string)
    ensures |RoomPrefix| <= |r| && r[..|RoomPrefix|] == RoomPrefix
    ensures '@' !in r
    ensures email.None? ==> r == RoomPrefix + Undefined
    ensures email.Some? ==>
              |r| == |RoomPrefix| + |email.value| &&
              forall i :: 0 <= i < |email.value| ==>
                r[|RoomPrefix| + i] == if email.value[i] == '@' then '-' else email.value[i]
  {
    match email
    case None => RoomPrefix + Undefined
    case Some(e) =>
      var r := RoomPrefix + ReplaceAll(e, '@', '-');
      assert forall i :: |RoomPrefix| <= i < |r| ==> r[i] == ReplaceAll(e, '@', '-')[i - |RoomPrefix|];
      r
  }

  /** Two emails that differ only where one has `@` and the other `-` share
      a room. */
  lemma RoomNameMergesAtAndDash(e1: string, e2: string)
    requires |e1| == |e2|
    requires forall i :: 0 <= i < |e1| ==> e1[i] == e2[i] || {e1[i], e2[i]} == {'@', '-'}
    ensures RoomName(Some(e1)) == RoomName(Some(e2))
  {
  }

  /** `value || undefined` on a string: the empty string is falsy. */
  function OrUndefined(s: Option<string>): (r: Option<string>)
    ensures r.Some? <==> s.Some? && s.value != ""
    ensures r.Some? ==> r == s
  {
    if s.Some? && s.value != "" then s else None
  }

  /** `createParticipantToken`, before signing. */
  function ParticipantToken(apiKey: Option<string>, apiSecret: Option<string>,
                            identity: Option<string>, name: Option<string>, roomName: string): (t: AccessToken)
    ensures t.apiKey == apiKey && t.apiSecret == apiSecret
    ensures t.identity == identity && t.name == name && t.ttl == TokenTtl
    ensures |t.grants| == 1 && t.grants[0].room == roomName
    ensures t.grants[0].roomJoin && t.grants[0].canPublish
    ensures t.grants[0].canPublishData && t.grants[0].canSubscribe
  {
    AccessToken(apiKey, apiSecret, identity, name, TokenTtl,
                [VideoGrant(roomName, true, true, true, true)])
  }

  /** The header check: `authorization !== CUSTOM_API_SECRET`, where a missing
      header is `null` and a missing secret `undefined`, so the request passes
      only when both are present and equal. */
  predicate Authorized(authorization: Option<string>, secret: Option<string>)
  {
    authorization.Some? && secret.Some? && authorization.value == secret.value
  }

  /** `GET /api/grant-jwt`. */
  function Get(authorization: Option<string>, secret: Option<string>,
               email: Option<string>, name: Option<string>,
               apiKey: Option<string>, apiSecret: Option<string>,
               sign: AccessToken -> Option<string>): (h: Handled)
    ensures h.token.Some? <==> Authorized(authorization, secret)
    ensures h.token.None? ==> h.response == Some(Response(401, ErrorBody(Unauthorized)))
    ensures h.token.Some? ==>
              var t := h.token.value;
              && h.response == (match sign(t)
                                case None => None
                                case Some(jwt) => Some(Response(200, JwtBody(jwt))))
              && t.grants == [VideoGrant(RoomName(email), true, true, true, true)]
              && t.identity == OrUndefined(email) && t.name == OrUndefined(name)
              && t.ttl == TokenTtl
  {
    if !Authorized(authorization, secret) then
      Handled(Some(Response(401, ErrorBody(Unauthorized))), None)
    else
      var roomName := RoomName(email);
      var token := ParticipantToken(apiKey, apiSecret, OrUndefined(email), OrUndefined(name), roomName);
      match sign(token)
      case None => Handled(None, Some(token))
      case Some(jwt) => Handled(Some(Response(200, JwtBody(jwt))), Some(token))
  }

  /** The granted room and the token identity come from the same email: a
      token with an identity grants exactly that identity's room. */
  lemma GrantedRoomIsIdentityRoom(authorization: Option<string>, secret: Option<string>,
                                  email: Option<string>, name: Option<string>,
                                  apiKey: Option<string>, apiSecret: Option<string>,
                                  sign: AccessToken -> Option<string>)
    requires Authorized(authorization, secret)
    ensures var t := Get(authorization, secret, email, name, apiKey, apiSecret, sign).token.value;
            t.identity.Some? ==> t.grants[0].room == RoomName(t.identity)
  {
  }
}
