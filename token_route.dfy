/**
  The `POST /api/session/:session/generate-token` handler: it checks the
  body's `secretkey` against the environment's shared secret and, when it
  matches, signs a one-hour token bound to the path's session.
 */
module TokenRoute {
  import opened Wrappers
  import opened Js

  const ExpiresIn := "1h"
  const DefaultJwtSecret := "botari_secret"
  const InvalidKeyMessage := "Invalid or missing secret key"
  const FailureMessage := "Token generation failed"

  /** The two environment variables the handler reads; None when unset. */
  datatype Env = Env(botariSecretKey: Option<string>, jwtSecret: Option<string>)

  /** An HTTP status and a JSON body. */
  datatype Reply = Reply(status: nat, body: Value)

  /** An environment variable as a JavaScript value. */
  function EnvValue(v: Option<string>): Value {
    match v
    case None => Undefined
    case Some(s) => Str(s)
  }

  /** The token signing secret: `JWT_SECRET` when set and non-empty, else a fixed fallback. */
  function SigningSecret(env: Env): (s: string)
    ensures s != ""
    ensures env.jwtSecret.Some? && env.jwtSecret.value != "" ==> s == env.jwtSecret.value
    ensures env.jwtSecret.None? || env.jwtSecret.value == "" ==> s == DefaultJwtSecret
  {
    if env.jwtSecret.Some? && env.jwtSecret.value != "" then env.jwtSecret.value else DefaultJwtSecret
  }

  /** The key is accepted when it is truthy and strictly equal to `BOTARI_SECRET_KEY`. */
  predicate KeyAccepted(secretkey: Value, env: Env) {
    Truthy(secretkey) && secretkey == EnvValue(env.botariSecretKey)
  }

  /**
    The handler. `sign` stands for `jwt.sign(payload, secret, {expiresIn})`
    and gives None when it throws. Destructuring a null or undefined body
    throws too; both are caught and answered with a 500.
   */
  function GenerateToken(body: Value, session: string, env: Env, sign: (Value, string, string) -> Option<string>): (r: Reply)
    ensures r.status == 200 || r.status == 401 || r.status == 500
    ensures r.status == 401 <==> !Nullish(body) && !KeyAccepted(Get(body, "secretkey"), env)
    ensures r.status == 401 ==> r.body == Obj(map["error" := Str(InvalidKeyMessage)])
    ensures r.status == 500 ==> r.body == Obj(map["error" := Str(FailureMessage)])
    ensures r.status != 200 ==> Get(r.body, "token") == Undefined
    ensures r.status == 200 <==>
              && !Nullish(body)
              && KeyAccepted(Get(body, "secretkey"), env)
              && sign(Obj(map["session" := Str(session)]), SigningSecret(env), ExpiresIn).Some?
    ensures r.status == 200 ==>
              r.body == Obj(map[
                "session" := Str(session),
                "token" := Str(sign(Obj(map["session" := Str(session)]), SigningSecret(env), ExpiresIn).value),
                "expiresIn" := Str(ExpiresIn)])
    ensures r.status == 200 ==>
              && env.botariSecretKey.Some? && env.botariSecretKey.value != ""
              && Get(body, "secretkey") == Str(env.botariSecretKey.value)
              && Get(r.body, "session") == Str(session)
              && Get(r.body, "expiresIn") == Str(ExpiresIn)
              && Get(r.body, "token") ==
                   Str(sign(Obj(map["session" := Str(session)]), SigningSecret(env), ExpiresIn).value)
  {
    if Nullish(body) then
      Reply(500, Obj(map["error" := Str(FailureMessage)]))
    else if !KeyAccepted(Get(body, "secretkey"), env) then
      Reply(401, Obj(map["error" := Str(InvalidKeyMessage)]))
    else
      match sign(Obj(map["session" := Str(session)]), SigningSecret(env), ExpiresIn)
      case None => Reply(500, Obj(map["error" := Str(FailureMessage)]))
      case Some(token) =>
        Reply(200, Obj(map["session" := Str(session), "token" := Str(token), "expiresIn" := Str(ExpiresIn)]))
  }
}
