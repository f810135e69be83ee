# Per-team OpenAI configuration layer of the Slack AI bot (`main_koyeb.py`)

This project models, in Dafny, the part of the bot's Koyeb entry point that
stores and resolves each Slack workspace's OpenAI settings:

- **Connection-string decomposition.** Every store operation rebuilds the
  PostgreSQL connection parameters from `DATABASE_URL` with plain
  `str.split` and subscripting: `dbname` is the last `/`-piece, `user` the
  text between `://` and the next `:`, `password` the text after the
  second `:` up to the next `@` or the third `:`, whichever comes first,
  `host` the text after the first `@` up to the next `/` or the second
  `@`, whichever comes first, and `port` the constant `"5432"`. Python's `split` (a
  left-to-right cut at non-overlapping occurrences, also for the
  three-character `"://"`) and list subscripting (negative indices,
  `IndexError`) are modelled exactly (`PyText`), and the decomposition is
  `DatabaseUrl.ParseDatabaseUrl`, `None` standing for the `IndexError`.
- **The configuration store.** `Store.ConfigStore` is a class whose fields
  are the module-level `DATABASE_URL` (read once), the rows of the
  `openai_configs` table (`map<team_id, config>`) and whether the table has
  been created. `SetupDatabase`, `Save`, `Get` and `Delete` follow the four
  functions branch by branch: an unset or empty URL, a URL whose
  decomposition fails, a server that refuses the connection (the boolean
  `dbUp`), or a missing table give `False`/`None` with the table unchanged,
  while `setup_database` raises in every failure case. A `None` team id
  behaves as SQL NULL: it matches no row on select and delete and is
  rejected as a primary key on insert.
- **The context middleware** `set_db_openai_api_key`, which overlays a
  truthy stored configuration (or, in single-workspace mode, the
  environment's key and the process defaults) plus six static values onto
  the Bolt context and then calls `next_` once.
- **The adjacent decisions**: which modal field gets the validation error,
  the `{api_key, model}` record the modal stores, and when the two
  revocation handlers delete the team's configuration.

The model follows the code as written: the code has no in-memory
fallback (the `in_memory_storage` dictionary at main_koyeb.py:40 is never
read or written), does not read discrete
host/user/password variables, and its `setup_database` raises instead of
degrading. A failed save returns `False`; it is not written anywhere else.
The modal's two handlers check differently: the acknowledgement probes
`gpt-3.5-turbo` and then the chosen model, while the save handler, which
runs whatever the acknowledgement said, retrieves only the chosen model. A
modal rejected on its `model` field is therefore never stored, but one
rejected with "This API key seems to be invalid" is stored whenever the
chosen model can be retrieved (`Registration.RejectedKeyIsSaved`).
Likewise, the default-filling of image model and temperature happens in the
middleware, not in the store: `get` returns exactly the stored document.

## Model

| member | source | states |
|---|---|---|
| `PyText.Find` | main_koyeb.py:51-54 | the leftmost occurrence of a separator (what `split` cuts at): it occurs there and nowhere before; `None` exactly when it occurs nowhere |
| `PyText.Split` | main_koyeb.py:51-54 | `str.split` always yields at least one piece, so `[0]` and `[-1]` never fail |
| `PyText.SplitJoin` | main_koyeb.py:51-54 | joining the pieces back with the separator gives the original string |
| `PyText.SplitPiecesFree` | main_koyeb.py:51-54 | no piece contains the separator |
| `PyText.SplitHasSecond` | main_koyeb.py:52 | `split(sep)[1]` exists exactly when `sep` occurs in the string |
| `PyText.SplitCharCount` | main_koyeb.py:53 | splitting at one character gives one more piece than the character's occurrences, so `split(":")[2]` needs two colons |
| `PyText.SplitLead` | main_koyeb.py:51-54 | when the text before a separator lacks the separator's first character, the split is that text followed by the split of the rest |
| `PyText.JoinLast` | main_koyeb.py:51 | a joined sequence ends with the separator and the last piece |
| `DatabaseUrl.ParseWellFormed` | main_koyeb.py:50-56 | `s://u:p@h/d` with delimiter-free parts decomposes to dbname `d`, user `u`, password `p`, host `h`, port `"5432"` |
| `DatabaseUrl.ParseHostKeepsPort` | main_koyeb.py:53-55 | for `s://u:p@h:n/d` the host is `h:n` (it stops only at `/`) and the port is still `"5432"` |
| `DatabaseUrl.ParseFailsIff` | main_koyeb.py:50-56 | the decomposition raises exactly when the URL lacks `://`, lacks `@`, or has fewer than two `:` |
| `DatabaseUrl.ParseResultShape` | main_koyeb.py:51-55 | on success the port is `"5432"` and the database name is the text after the URL's last `/` |
| `Store.Upserted` | main_koyeb.py:93-98 | the upsert inserts or replaces the team's row and keeps every other row |
| `Store.RowsWithout` | main_koyeb.py:158-161 | the delete removes only the team's row; a `None` team id removes nothing |
| `Store.Select` | main_koyeb.py:125-135 | the lookup returns the stored document exactly when the team has a row, else `None` |
| `Store.SaveThenGet` | main_koyeb.py:93-98 | after a save, a lookup of the same team returns the saved configuration |
| `Store.SaveKeepsOthers` | main_koyeb.py:93-98 | a save leaves every other team's lookup unchanged |
| `Store.SaveIdempotent` | main_koyeb.py:93-98 | saving the same configuration twice gives the same table as once |
| `Store.DeleteThenGet` | main_koyeb.py:158-161 | after a delete, a lookup of that team returns `None` |
| `Store.DeleteKeepsOthers` | main_koyeb.py:158-161 | a delete leaves every other team's lookup unchanged |
| `Store.DeleteAbsent` | main_koyeb.py:158-165 | deleting a team without a row leaves the table as it was |
| `Store.Fetched` | main_koyeb.py:108-138 | the answer of `get_openai_config` is a configuration exactly when the store is reachable and the team has a row |
| `Store.ConfigStore.SetupDatabase` | main_koyeb.py:43-73 | completes (and the table then exists) exactly when the URL is set, decomposes and the server is up; otherwise raises the matching error |
| `Store.ConfigStore.Save` | main_koyeb.py:76-105 | `True` exactly when the store is reachable and the team id is not `None`, and then the row is upserted; on `False` the table is unchanged |
| `Store.ConfigStore.Get` | main_koyeb.py:108-138 | returns the team's row when the store is reachable and holds one; `None` on an unset URL, a failed decomposition, a down server or a missing row |
| `Store.ConfigStore.Delete` | main_koyeb.py:141-168 | `True` exactly when the store is reachable, also for an absent team, and then only that row is gone; on `False` the table is unchanged |
| `Middleware.SettingsKeys` | main_koyeb.py:241-262 | the middleware writes exactly ten distinct keys |
| `Middleware.SettingsFound` | main_koyeb.py:241-249 | a truthy configuration supplies key and model (`None` when absent) and, when present, image model and temperature, which otherwise default |
| `Middleware.SettingsNotFound` | main_koyeb.py:250-255 | with no configuration or an empty one, the key comes from the environment and model, image model and temperature from the defaults |
| `Middleware.SettingsStatic` | main_koyeb.py:257-262 | the six static keys are the process constants whatever the store says |
| `Middleware.BoltContext.Put` | main_koyeb.py:241-262 | `context[key] = value` updates that one entry and logs the write |
| `Middleware.BoltContext.Next` | main_koyeb.py:263 | `next_()` is logged, and may only be called once all ten settings are in the context |
| `Middleware.MiddlewareStepsOrder` | main_koyeb.py:241-263 | the middleware's effects are one write of each of the ten keys in source order, then `next_` exactly once, last |
| `Middleware.SetDbOpenAiApiKey` | main_koyeb.py:239-263 | the context becomes the old context overlaid with the ten settings derived from the store's answer, and the context's log grows by exactly the ten writes followed by one `next_` |
| `Middleware.UnconfiguredTeamGetsDefaults` | main_koyeb.py:240-255 | a team without a row sees the default model and the environment's API key |
| `Registration.ValidationAck` | main_koyeb.py:298-332 | accepted exactly when both retrievals succeed; the error goes on `api_key` exactly when the key check fails and on `model` exactly when only the model check fails, translated exactly when a key was already set |
| `Registration.AlreadySetKeyFromMiddleware` | main_koyeb.py:299 | the key the modal treats as already set is the one the middleware wrote: the stored key, or the environment's in single-workspace mode |
| `Registration.RegistrationThroughMiddleware` | main_koyeb.py:345-348 | the stored `{api_key, model}` record, read back by the middleware, gives the submitted key and model and the default image model and temperature |
| `Registration.RegistrationTable` | main_koyeb.py:342-348 | the table after the save handler: when the model is retrievable, the store reachable and a team id given, the team reads back the `{api_key, model}` record and every other team is unchanged; otherwise the table is unchanged |
| `Registration.SaveApiKeyRegistration` | main_koyeb.py:334-350 | the handler leaves the table as `RegistrationTable` of the old one, with the store's reachability and the context's team id |
| `Registration.AcceptedIsSaved` | main_koyeb.py:304-348 | an accepted modal is stored by the save handler exactly when the store is reachable and a team id is given, and otherwise leaves the table unchanged (with both handlers seeing the same `retrieve`) |
| `Registration.ModelErrorIsNotSaved` | main_koyeb.py:308-321 | a modal rejected on its `model` field is never stored |
| `Registration.RejectedKeyIsSaved` | main_koyeb.py:304-332 | a key that fails the `gpt-3.5-turbo` probe but retrieves the chosen model is answered "invalid key" and still stored |
| `Revocation.InstallationDeletions` | main_koyeb.py:178-185 | one `delete_installation` per revoked user token, in order |
| `Revocation.HandleTokensRevoked` | main_koyeb.py:172-197 | deletes each user installation, and only when bot tokens were revoked deletes the bot and then the team's configuration |
| `Revocation.HandleAppUninstalled` | main_koyeb.py:199-213 | deletes all installations and always deletes the team's configuration |

## Left out

- The PostgreSQL driver, connections, cursors and SQL text: the table is a map, and whether the server accepts the connection is the boolean `dbUp` of each call. The JSONB round trip of a configuration is taken to be the identity.
- The in-memory fallback, retries and concurrency: the code implements none of them (main_koyeb.py:40 is dead).
- Discrete host/user/password/database variables as a second way to connect: main_koyeb.py reads only `DATABASE_URL`.
- Logging, `load_dotenv` and `os.environ`: their results are parameters (`databaseUrl`, `Defaults`).
- The Slack Bolt wiring (`App`, `SocketModeHandler`, listener registration, retry handler), `views_publish`/`views_open`, the home tab message (main_koyeb.py:266-285), the configure button (main_koyeb.py:288-296) and the locale middleware with its `users_info` call (main_koyeb.py:358-375): network and UI code outside this model.
- The installation-store calls are recorded in order, not executed; exceptions they might raise are not modelled.
- OpenAI `models.retrieve` (and constructing the client) is the parameter `retrieve`. The acknowledgement and the save handler each make their own network call (main_koyeb.py:306-310 and 343-344); the model gives both the same `retrieve`, so it assumes the two calls for the same key and model agree, and a key whose access changes between them is not modelled; `translate` is recorded as a request (`Translated`) rather than computed; an exception raised by `translate` or `ack` inside the inner error path is not modelled.
- `OPENAI_TEMPERATURE` is a float carried by its literal text; nothing computes with it.
- The modal's `view["state"]["values"]` lookups are assumed to succeed and yield strings; a malformed view (a `KeyError`) is not modelled.
- `str.split("")`, which raises in Python: `PyText.Split` requires a non-empty separator, as every separator in the source is a non-empty literal.
- The unimported `Ack` annotation at main_koyeb.py:298, a start-up defect of the wiring.
