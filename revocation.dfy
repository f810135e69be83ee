/**
 * The `tokens_revoked` and `app_uninstalled` event handlers: they clean the
 * installation store (a foreign object whose calls are recorded in order)
 * and decide when the team's OpenAI configuration is deleted.
 */
module Revocation {
  import opened Wrappers
  import opened Store
  import opened Middleware

  datatype InstallCall =
    | DeleteInstallation(enterpriseId: Option<string>, teamId: Option<string>, userId: string)
    | DeleteBot(enterpriseId: Option<string>, teamId: Option<string>)
    | DeleteAll(enterpriseId: Option<string>, teamId: Option<string>)

  /** The installation store, observed through the calls made on it. */
  class InstallationStore {
    var calls: seq<InstallCall>

    constructor ()
      ensures calls == []
    {
      calls := [];
    }

    method DeleteInstallation(enterpriseId: Option<string>, teamId: Option<string>, userId: string)
      modifies this
      ensures calls == old(calls) + [InstallCall.DeleteInstallation(enterpriseId, teamId, userId)]
    {
      calls := calls + [InstallCall.DeleteInstallation(enterpriseId, teamId, userId)];
    }

    method DeleteBot(enterpriseId: Option<string>, teamId: Option<string>)
      modifies this
      ensures calls == old(calls) + [InstallCall.DeleteBot(enterpriseId, teamId)]
    {
      calls := calls + [InstallCall.DeleteBot(enterpriseId, teamId)];
    }

    method DeleteAll(enterpriseId: Option<string>, teamId: Option<string>)
      modifies this
      ensures calls == old(calls) + [InstallCall.DeleteAll(enterpriseId, teamId)]
    {
      calls := calls + [InstallCall.DeleteAll(enterpriseId, teamId)];
    }
  }

  /** The `tokens` part of a `tokens_revoked` event; either list may be missing. */
  datatype Tokens = Tokens(oauth: Option<seq<string>>, bot: Option<seq<string>>)

  datatype TokensRevokedEvent = TokensRevokedEvent(tokens: Option<Tokens>)

  /** `event.get("tokens", {}).get("oauth", [])`. */
  function OauthUserIds(event: TokensRevokedEvent): seq<string> {
    if event.tokens.Some? && event.tokens.value.oauth.Some? then event.tokens.value.oauth.value else []
  }

  /** `event.get("tokens", {}).get("bot", [])`. */
  function BotTokens(event: TokensRevokedEvent): seq<string> {
    if event.tokens.Some? && event.tokens.value.bot.Some? then event.tokens.value.bot.value else []
  }

  /** One `delete_installation` per revoked user token, in the event's order. */
  function InstallationDeletions(enterpriseId: Option<string>, teamId: Option<string>, userIds: seq<string>): (r: seq<InstallCall>)
    ensures |r| == |userIds|
    ensures forall k :: 0 <= k < |r| ==> r[k] == InstallCall.DeleteInstallation(enterpriseId, teamId, userIds[k])
  {
    if userIds == [] then []
    else InstallationDeletions(enterpriseId, teamId, userIds[..|userIds| - 1])
         + [InstallCall.DeleteInstallation(enterpriseId, teamId, userIds[|userIds| - 1])]
  }

  /**
   * `handle_tokens_revoked_events`: delete one installation per revoked user
   * token; when bot tokens were revoked, delete the bot and then the team's
   * OpenAI configuration. A failed config delete is swallowed.
   */
  method HandleTokensRevoked(installs: InstallationStore, store: ConfigStore, context: BoltContext,
                             event: TokensRevokedEvent, dbUp: bool)
    modifies installs, store`table
    ensures installs.calls == old(installs.calls)
      + InstallationDeletions(context.enterpriseId, context.teamId, OauthUserIds(event))
      + (if |BotTokens(event)| > 0 then [InstallCall.DeleteBot(context.enterpriseId, context.teamId)] else [])
    ensures store.table ==
      if |BotTokens(event)| > 0 && store.Reachable(dbUp)
      then RowsWithout(old(store.table), context.teamId)
      else old(store.table)
  {
    var userIds := OauthUserIds(event);
    if |userIds| > 0 {
      var i := 0;
      while i < |userIds|
        invariant 0 <= i <= |userIds|
        invariant installs.calls == old(installs.calls)
          + InstallationDeletions(context.enterpriseId, context.teamId, userIds[..i])
        invariant store.table == old(store.table)
      {
        installs.DeleteInstallation(context.enterpriseId, context.teamId, userIds[i]);
        assert userIds[..i + 1][..i] == userIds[..i];
        i := i + 1;
      }
      assert userIds[..i] == userIds;
    }
    var bots := BotTokens(event);
    if |bots| > 0 {
      installs.DeleteBot(context.enterpriseId, context.teamId);
      var _ := store.Delete(context.teamId, dbUp);
    }
  }

  /**
   * `handle_app_uninstalled_events`: delete every installation of the
   * workspace, then always delete the team's OpenAI configuration.
   */
  method HandleAppUninstalled(installs: InstallationStore, store: ConfigStore, context: BoltContext, dbUp: bool)
    modifies installs, store`table
    ensures installs.calls == old(installs.calls) + [InstallCall.DeleteAll(context.enterpriseId, context.teamId)]
    ensures store.table ==
      if store.Reachable(dbUp) then RowsWithout(old(store.table), context.teamId) else old(store.table)
  {
    installs.DeleteAll(context.enterpriseId, context.teamId);
    var _ := store.Delete(context.teamId, dbUp);
  }
}
