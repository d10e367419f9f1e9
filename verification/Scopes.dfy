/** The scopes an app may ask for at sign-in. */
module Scopes {
  datatype Scope = OpenId | Profile | Email | OfflineAccess
}
