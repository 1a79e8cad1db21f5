/**
 * Process-wide configuration, read once at start-up and never changed afterwards.
 * Start-up refuses an empty JWT secret, so every running handler sees a non-empty one.
 */
module Config {
  import Jwt

  type Secret = s: string | s != "" witness "secret"

  /** The configured signing secret together with the token library the handlers call. */
  datatype Env = Env(secret: Secret, jwt: Jwt.Library)
}
