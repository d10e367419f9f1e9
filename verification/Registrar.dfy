/** Registering the sign-in client an app declares, or taking up a registration
    that was interrupted (oidc-provider/src/registrar.rs, oidc-provider/src/client.rs). */
module Registrar {
  import opened Wrappers
  import opened Saga

  datatype Outcome = Done | Interrupted | Refused

  /** The row says of the app what the app declares. */
  predicate Says(client: Client, app: App, redirect: string)
    requires app.oidc.Some?
  {
    && client.appId == app.appId && client.displayName == app.displayName
    && client.confidential == app.oidc.value.confidential && client.scopes == app.oidc.value.scopes
    && client.redirect == redirect
  }

  /** The row's digest is of this secret, or neither is there. */
  predicate Seals(client: Client, secret: Option<nat>) {
    match (client.digest, secret)
    case (None, None) => true
    case (Some(digest), Some(value)) => digest == Sha256(value)
    case _ => false
  }

  predicate MatchesDeclaration(client: Client, app: App, redirect: string, secret: Option<nat>)
    requires app.oidc.Some?
  {
    client.revokedAt.None? && Says(client, app, redirect) && Seals(client, secret)
  }

  /** A control character. */
  predicate Control(ch: char) { '\0' <= ch <= '\U{1F}' || '\U{7F}' <= ch <= '\U{9F}' }

  /** What is refused, said of the stored row and the declaration field by field. */
  predicate Refusable(app: App, address: Option<string>, client: Option<Client>, secret: Option<nat>) {
    && app.oidc.Some?
    && (|| address.None?
        || (!app.oidc.value.confidential && secret.Some?)
        || (app.oidc.value.confidential && client.Some? && client.value.revokedAt.None? && secret.None?)
        || (client.Some? && client.value.revokedAt.Some?)
        || (client.Some? && client.value.appId != app.appId)
        || (client.Some? && client.value.displayName != app.displayName)
        || (client.Some? && client.value.confidential != app.oidc.value.confidential)
        || (client.Some? && client.value.scopes != app.oidc.value.scopes)
        || (client.Some? && Some(client.value.redirect) != address)
        || (client.Some? && client.value.digest != if secret.Some? then Some(Sha256(secret.value)) else None)
        || (client.None? && exists i :: 0 <= i < |app.displayName| && Control(app.displayName[i])))
  }

  /** What is stored in the end: the row the app declares, under the address
      resolved, with the digest of the one stored secret. */
  predicate Holds(app: App, address: Option<string>, client: Option<Client>, secret: Option<nat>) {
    && app.oidc.Some? && client.Some? && client.value.revokedAt.None? && Some(client.value.redirect) == address
    && client.value.appId == app.appId && client.value.displayName == app.displayName
    && client.value.confidential == app.oidc.value.confidential && client.value.scopes == app.oidc.value.scopes
    && if app.oidc.value.confidential
       then secret.Some? && client.value.digest == Some(Sha256(secret.value))
       else secret.None? && client.value.digest.None?
  }

  /** What a call may have stored wherever it stopped. */
  predicate Stores(app: App, address: Option<string>, client: Option<Client>, secret: Option<nat>, at: nat,
    client': Option<Client>, secret': Option<nat>)
  {
    && (secret' != secret ==>
      secret.None? && secret'.Some? && !Live(client) && app.oidc.Some? && app.oidc.value.confidential)
    && (client' != client ==> client.None? && Holds(app, address, client', secret') && client'.value.createdAt == at)
    && (client' != client ==> forall i :: 0 <= i < |app.displayName| ==> !Control(app.displayName[i]))
  }

  /** The secret is stored first, then the client row that holds its digest. A
      live row is taken over only if it says exactly what the app declares under
      the address resolved now, and is never changed. */
  method Register(app: App, address: Option<string>, client: Option<Client>, secret: Option<nat>, at: nat, steady: bool)
    returns (out: Outcome, client': Option<Client>, secret': Option<nat>)
    ensures out == Done && app.oidc.Some? ==> Holds(app, address, client', secret')
    ensures out != Interrupted ==> (out == Refused <==> Refusable(app, address, client, secret))
    ensures Stores(app, address, client, secret, at, client', secret')
    ensures steady ==> out != Interrupted
  {
    hide Nameable;
    client', secret' := client, secret;
    assert Nameable(app) <==> forall i :: 0 <= i < |app.displayName| ==> !Control(app.displayName[i]) by {
      NameableIs(app);
    }
    if app.oidc.None? { return Done, client, secret; }
    if address.None? { return Refused, client, secret; }
    if !app.oidc.value.confidential {
      if secret.Some? { return Refused, client, secret; }
      if Live(client) {
        out := if MatchesDeclaration(client.value, app, address.value, None) then Done else Refused;
        return;
      }
    } else if Live(client) {
      if secret.None? { return Refused, client, secret; }
      out := if MatchesDeclaration(client.value, app, address.value, secret) then Done else Refused;
      return;
    } else if secret.None? {
      var generated: nat := *;
      secret' := Some(generated);
      if !steady { if * { return Interrupted, client', secret'; } }
    }
    if !Nameable(app) || client.Some? { return Refused, client', secret'; }
    var id: nat := *;
    client' := Some(BuildClient(app, id, address.value, secret', at));
    if !steady { if * { return Interrupted, client', secret'; } }
    return Done, client', secret';
  }

  lemma NameableIs(app: App)
    ensures Nameable(app) <==> forall i :: 0 <= i < |app.displayName| ==> !Control(app.displayName[i])
  {
  }
}
