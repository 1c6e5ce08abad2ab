# Database error translation and request plumbing of a FastAPI service template

This project models, in Dafny, the parts of a FastAPI/SQLAlchemy service template that carry real logic:

- **The database error translator.** `to_constraint_name` turns a mapped column and a constraint kind (`ix`, `uq`, `ck`, `fk`) into a canonical constraint name. `DatabaseErrorTranslator` builds a registry from constraint names to domain error classes. It then wraps one storage operation and decides how it ends. A normal completion stays *clean*. An `IntegrityError` whose reported constraint name is non-empty and registered is *translated* into the registered domain error, which carries the driver's detail message and has the original error as its cause. Everything else is *propagated* unchanged. Python exceptions become the datatype `Outcome = Clean | Translated | Propagated`. The driver's diagnostics become `Option<string>` fields, and `DriverError.diag == None` stands for diagnostics that cannot be read.
- **The naming convention.** `NAMING_CONVENTION` is the template table SQLAlchemy uses to name the schema's constraints. Each template is a list of literal text and placeholders. The lemmas state where the table agrees with the canonicaliser: for `uq` and `fk` whenever column 0's name is the column's key, for `ix` exactly when column 0's label is the key, and for `ck` exactly when the check constraint's own name is the key. `pk` has a template but no canonical counterpart.
- **The `DB` holder.** A class with two optional fields, `engine` and `sessionFactory`. `Connect` disconnects first, then stores both fields only after the probe connection succeeds. `Disconnect` clears both fields only when an engine is set. The two getters fail with "Database not connected".
- **The HTTP middleware and routes.** The client address logged for a request is the first comma-separated entry of `X-Forwarded-For`, stripped of whitespace exactly as Python's `str.strip()` strips it. Without that header it is the peer's host, and otherwise none. An `Exception` raised by the handler becomes a 500 response with detail "Internal Server Error". `/` redirects to `/docs`, and `/health` answers 204.

Two definitions carry most of the lemmas and have no contract of their own. `DatabaseUtils.Registry` with `Canonical` is the dictionary the translator's constructor builds (app/database/utils.py:67-72). `DatabaseCore.NamingConvention` with `Expand` is the template table and its expansion (app/database/core.py:75-81). The rows below for `RegistryKeys`, `RegistryLastWins`, `ConventionEndsWithKind` and the template-agreement lemmas state their properties.

Modules: `Wrappers` (Option, Result), `DatabaseUtils` (app/database/utils.py), `DatabaseCore` (app/database/core.py), `App` (app/app.py).

Three behaviours of the code that are easy to miss, all modelled as written:
- the canonicaliser has no `pk` kind;
- a missing detail is `None`, not an empty string;
- an empty constraint name is never translated, even when `""` is registered.

## Model

| member | source | states |
|---|---|---|
| `DatabaseUtils.ToConstraintName` | app/database/utils.py:17-28 | The name ends in `_` and the kind. For `uq`/`ck`/`fk` it is the table, `_`, the column key, then that suffix. For `ix` it is the column key followed by `_ix`. |
| `DatabaseUtils.ConstraintNameDeterminesKind` | app/database/utils.py:22-26 | Two equal canonical names always come from the same kind. |
| `DatabaseUtils.ConstraintNameDeterminesKey` | app/database/utils.py:20-26 | For one kind, and for one table when the kind is not `ix`, equal names mean equal column keys. |
| `DatabaseUtils.IndexNameIgnoresTable` | app/database/utils.py:25-26 | An `ix` name is `key + "_ix"` and is the same for every table. |
| `DatabaseUtils.CrossTableNamesCollide` | app/database/utils.py:23-24 | Names are not unique across tables: (`team`, `players_id`) and (`team_players`, `id`) both give `team_players_id_fk`. |
| `DatabaseUtils.ExtractConstraintName` | app/database/utils.py:9-14 | Returns the diagnostics' constraint name, or None instead of failing when the diagnostics cannot be read. |
| `DatabaseUtils.GetExcDetail` | app/database/utils.py:31-36 | Returns the detail message when it is non-empty and otherwise the primary message (which may itself be missing or empty). Returns None when the diagnostics cannot be read. |
| `DatabaseUtils.DetailComesFromDiagnostics` | app/database/utils.py:34 | A non-empty detail exists only when the diagnostics are readable, and it is one of their two messages. |
| `DatabaseUtils.RegistryKeys` | app/database/utils.py:67-72 | Every entry's name is registered, and every registered name belongs to some entry. Literal names are kept verbatim and pairs are canonicalised. |
| `DatabaseUtils.RegistryLastWins` | app/database/utils.py:69-72 | An entry whose name no later entry reuses is the one registered under that name, so the later entry wins. |
| `DatabaseUtils.DatabaseErrorTranslator.constructor` | app/database/utils.py:63-72 | The loop over the entries leaves `constraintErrors` equal to the registry of the entries taken in iteration order. |
| `DatabaseUtils.DatabaseErrorTranslator.Call` | app/database/utils.py:74-83 | Clean exactly when the operation completed. Translated exactly when an `IntegrityError` names a non-empty, registered constraint, and then the result is that constraint's domain error with `GetExcDetail` as detail and the original as cause. Any other error propagates unchanged. |
| `DatabaseUtils.EmptyNameNeverTranslated` | app/database/utils.py:79-83 | An integrity error reporting the empty name propagates unchanged even when `""` is registered. |
| `DatabaseUtils.RegisteredKeyTranslates` | app/database/utils.py:69-82 | A violation reporting a registered, non-empty name is translated into the error of the last entry for that name, with the driver's detail and the original as cause. The name can come from a literal key or from the canonical name of a (column, kind) pair. |
| `DatabaseUtils.UsageExample` | app/database/utils.py:46-61 | The documented usage: a clean run stays clean. The literal-key violation becomes `TeamNotFound`, which carries the primary message (there is no detail) and the original as cause. The pair-key violation becomes `PlayerNotFound` with the driver's detail and the original as cause. An unregistered violation and an unrelated error propagate exactly as raised. |
| `DatabaseCore.ConventionEndsWithKind` | app/database/core.py:75-81 | Every template expands to a name ending in `_` and its own kind. |
| `DatabaseCore.ConventionCoversKinds` | app/database/core.py:75-81 | The table has a template for every kind the canonicaliser accepts. It also has `pk`, which the canonicaliser does not accept. |
| `DatabaseCore.UniqueTemplateAgrees` | app/database/core.py:77 | The `uq` template equals `ToConstraintName(column, Uq)` when column 0 is the column. |
| `DatabaseCore.ForeignKeyTemplateAgrees` | app/database/core.py:79 | The `fk` template equals `ToConstraintName(column, Fk)` when column 0 is the column. |
| `DatabaseCore.PrimaryKeyTemplateIgnoresColumns` | app/database/core.py:80 | The `pk` template expands to `table + "_pk"` and does not depend on any column. |
| `DatabaseCore.IndexTemplateAgreesIff` | app/database/core.py:76 | The `ix` template equals the canonical `ix` name if and only if the column-0 label is the column key. |
| `DatabaseCore.CheckTemplateAgreesIff` | app/database/core.py:78 | For the column's table, the `ck` template equals the canonical `ck` name if and only if the constraint's own name is the column key. |
| `DatabaseCore.DB.constructor` | app/database/core.py:22-24 | Both fields start unset. |
| `DatabaseCore.DB.Disconnect` | app/database/core.py:50-56 | With an engine set, it disposes that engine and clears both fields. Otherwise nothing changes. Afterwards no engine is set, so a second call does nothing (idempotent). |
| `DatabaseCore.DB.Connect` | app/database/core.py:26-48 | It disconnects first when either field is set. Both fields are stored only when the probe succeeds. A failed probe leaves no engine, and leaves no factory when the holder was consistent before. |
| `DatabaseCore.DB.GetConnection` | app/database/core.py:58-64 | Fails with "Database not connected" exactly when no engine is set. Otherwise the connection comes from the engine. |
| `DatabaseCore.DB.GetSession` | app/database/core.py:66-72 | Fails with "Database not connected" exactly when no session factory is set. Otherwise the session comes from the factory. |
| `DatabaseCore.LifecycleExample` | tests/conftest.py:26-47 | The fixture's connect, then reconnect to a second URL. The two connections come from the first and the second engine. The example then disconnects twice, as the application's shutdown does once (app/app.py:29), to exercise idempotence. After that the getter fails. |
| `App.FirstSegment` | app/app.py:55 | `split(",")[0]`: the prefix that contains no comma and is either the whole string or stops right before its first comma. |
| `App.Strip` | app/app.py:55 | `strip()`: a run of the input whose outside is all whitespace (Python's `isspace` set) and whose ends are not whitespace. |
| `App.ClientIp` | app/app.py:54-59 | A present, non-empty header gives its stripped first entry. Otherwise the client host is used, and without a client there is no address. |
| `App.StripKeepsCommaFree` | app/app.py:55 | Stripping a comma-free string leaves it comma-free. |
| `App.ForwardedIpHasNoComma` | app/app.py:54-55 | An address taken from the header contains no comma. |
| `App.BlankFirstEntryYieldsEmptyIp` | app/app.py:54-55 | A non-empty header with a blank first entry yields the empty address, and the client host is not consulted. |
| `App.LoggingMiddleware` | app/app.py:63-82 | A returned response passes through unchanged. An `Exception` becomes the 500 "Internal Server Error" response, logged with the request's client address, method and path. An error outside `Exception` escapes as the same error. The log line always records the client address and the final status. |
| `App.RedirectToDocs` | app/app.py:85-87 | `/` answers with a redirect to `/docs`. |
| `App.Health` | app/app.py:90-92 | `/health` answers 204 with no body. |
| `App.RoutesPassThroughMiddleware` | app/app.py:82-92 | Both routes' responses pass through the middleware unchanged, and the redirect target and the 204 status reach the client and the log. |

## Left out

- app/auth/security.py, app/auth/dependencies.py and app/config.py are not part of this model. Token signing (HS256 under RFC 7515 and RFC 7519) and Argon2 hashing (RFC 9106) are foreign library code. The token is hard-coded to None, so the `get_me` route always answers 401. Configuration is loaded and validated by a library.
- Engine creation, pool tuning, `dispose`, the async context managers and the probe connection are I/O. The probe's outcome is the `probeSucceeds` parameter, and a failure to create the engine counts as a failed probe. Engines are identified by their URL, and `DB.disposed` is a ghost log of the engines disposed so far.
- DatabaseCore.DB.Disconnect: treated as one atomic step. The source awaits `dispose` between reading and clearing the fields (app/database/core.py:52-55), so a concurrent task could see the intermediate state. That interleaving is not modelled. The "Database disconnected" info log (app/database/core.py:56) is not modelled.
- DatabaseCore.DB.Connect: treated as one atomic step. The source awaits the disconnect and the probe connection (app/database/core.py:29, 42) before it writes the fields, so a concurrent task could see the intermediate states. Those interleavings are not modelled. The "Database connected" info log (app/database/core.py:48) is not modelled. Separately, the source keeps `engine` and `session_factory` as class-level attributes. The model keeps them on one `DB` object that stands for the class.
- App.LoggingMiddleware: does not model the elapsed-time measurement, the warning for requests slower than one second, the request id, structlog context variables, the log line's elapsed field, or the separate "Unhandled Exception" record with its traceback (app/app.py:66). These are clock, logging and formatting concerns.
- App.RedirectToDocs: status 307 is the framework's default redirect status. Building the FastAPI application, reading `pyproject.toml` and the lifespan hook are wiring.
- App.Health: FastAPI renders the handler's `None` as an empty 204 response. The model states that result and does not model the rendering.
- app/logger.py, gunicorn.conf.py, app/database/dependencies.py, scripts/gen_env.py and the tests are not part of this model (logging and process configuration, a session-commit wrapper, reflection over configuration defaults, and database and HTTP fixtures). The tests' connect/reconnect sequence appears only as `LifecycleExample`.
- The translator's input mapping is a sequence of (key, error) entries in the mapping's iteration order. Domain error classes are names (`ErrorType`), and constructing one is the `DomainError` value.
- SQLAlchemy's meaning of `column_0_name`, of `column_0_label` and of a check constraint's own name is library behaviour. The canonicaliser uses the attribute's key, which equals `column_0_name` only when the attribute is named after its column. The model therefore states the exact condition under which each template agrees with the canonicaliser, and does not claim whether a real schema meets it.
