# Cabernet self-updater and plugin form, in Dafny

This project models two parts of Cabernet, an IPTV proxy written in Python:

- **The self-updater** (`lib/updater/updater.py`):
  - choosing the next release from the GitHub release feed (`get_next_release`);
  - the single-flight `/api/upgrade` trigger over the module globals `IS_UPGRADING`, `STATUS` and `cabernet.STATUS`;
  - the upgrade thread's status sequence (`upgrade_app`) and the restart request it queues (`restart_app`);
  - the chunked copy of the release archive (`download_zip`).
- **The plugin admin form** (`lib/plugins/plugin_manager/plugins_form_html.py`):
  - the GET and POST dispatch of `/api/pluginsform`;
  - the `PluginsFormHTML` object with its area tab;
  - the sorted plugin listing with its upgrade badges;
  - the thumbnail size table;
  - the plugin detail page, including the in-place normalisation of `version.latest`.

Files and modules (one module per file):

| file | module | contents |
|---|---|---|
| `common.dfy` | `Common` | `Option`, `Result`, the Python exceptions that matter, JSON scalars and their truthiness |
| `version_key.dfy` | `VersionKey` | the regex `(\d+\.\d+)\.\d+` as a leftmost match, and the exact decimal key `major + minor / 10^len(minor)` |
| `release_selection.dfy` | `ReleaseSelection` | `get_next_release` as a loop proved against a function over the whole feed |
| `upgrade_controller.dfy` | `UpgradeController` | the globals as a class, the handler and the upgrade thread as methods, their specification functions, and lemmas about runs of requests |
| `zip_download.dfy` | `ZipDownload` | the response body and the output file as objects, and the copy loop |
| `plugin_catalog.dfy` | `PluginCatalog` | plugin definitions and the database query as a filter |
| `plugin_order.dfy` | `PluginOrder` | Python string order and the stable sort by id |
| `plugins_form.dfy` | `PluginsForm` | the form object, the listing, the detail page and both dispatchers |

Version keys are exact reals, not floats. So `"1.10.0"` has key 1.1, equal to the key of `"1.1.0"` and below that of `"1.9.0"`, as `float()` gives.

The upgrade thread runs sequentially. The handler records that it launched the thread (the ghost effect `Launched`). The thread body is a separate call, `UpgradeGlobals.UpgradeApp`. Its inputs are:

- `appUpgraded`: what `CabernetUpgrade.upgrade_app()` returns;
- `appOutput`: the text that call adds to `cabernet.STATUS`;
- `restartTasks`: what `DBScheduler.get_tasks('Applications', 'Restart')` returns.

A ghost trace of effects records each flag change, buffer clear, append, launch and enqueue in order. The lemmas about ordering and single flight are stated over that trace.

Behaviour of the code worth noting:

- An empty release feed raises `IndexError` at `release_data_list[0]`.
- When no release is newer, `get_next_release` returns the first (newest) tag, because `prev_version` starts there.
- A tag with no match before the walk stops raises `IndexError`. A malformed tag after the stop is never parsed.
- `download_zip` has no clean-up of a partial file on failure. Failures are not modelled at all (see Left out).
- In the POST handler, the fall-through answer is `"doing something else"` followed by the first character of the action string. The code indexes the string a second time. An empty action string raises `IndexError`.
- In the GET handler, an empty `area` is not truthy. A request with `area=` and neither plugin nor repo gets "404 - Badly formed plugin/repo request".
- A plugin with a current version and no usable `latest` shows the button "Upgrade to None" on its detail page.
- `upgrade_app` has no `try`/`finally` around `CabernetUpgrade(self.plugins)` and `app.upgrade_app()`. If either raises, the thread ends with `IS_UPGRADING` still set. Every later request then takes the already-upgrading branch, so no upgrade can be launched again until the program restarts.

## Model

| member | source | states |
|---|---|---|
| VersionKey.DigitRun | lib/updater/updater.py:153 | a `\d+` run starting at i is all digits and cannot be extended |
| VersionKey.MatchAtSound | lib/updater/updater.py:153 | a match found at i is an occurrence of `(\d+\.\d+)\.\d+`, and its groups are the digit runs around the first dot |
| VersionKey.MatchAtComplete | lib/updater/updater.py:153 | every occurrence of the pattern at i is found there, with the same group 1, so the greedy split is the only one |
| VersionKey.FirstMatchFromSpec | lib/updater/updater.py:153 | the search from i returns a matching position with no match before it, or none when nothing matches from i on |
| VersionKey.FirstMatchIsLeftmost | lib/updater/updater.py:153 | `findall(...)[0]` is group 1 of the leftmost occurrence |
| VersionKey.FirstMatchNoneIff | lib/updater/updater.py:153-156 | there is no first match (so `[0]` raises IndexError) exactly when the pattern occurs nowhere |
| VersionKey.NumberBelowPow10 | lib/updater/updater.py:153 | a string of n digits reads as a number below 10^n |
| VersionKey.KeyIntegerPart | lib/updater/updater.py:153 | the key `float("X.Y")` lies in [X, X+1) |
| VersionKey.MajorDominates | lib/updater/updater.py:153-157 | a smaller major number always gives a smaller key |
| VersionKey.ParseTail | lib/updater/updater.py:153 | any string that starts with `X.Y.` and a digit parses to the key of `X.Y`, whatever follows that digit, because the match is unanchored and keeps group 1 only |
| VersionKey.ParseWellFormed | lib/updater/updater.py:153 | a well-formed `X.Y.Z` parses to the key of `X.Y` |
| VersionKey.PatchIgnored | lib/updater/updater.py:153-156 | versions that agree up to the first digit after the second dot have equal keys, whatever text follows (`1.2.3`, `1.2.3.4`, `1.2.3-rc1`) |
| VersionKey.MinorIsDecimalFraction | lib/updater/updater.py:153-157 | `1.10.0` has the key of `1.1.0`, and both sort below `1.9.0` |
| ReleaseSelection.NewerRun | lib/updater/updater.py:155-159 | the length of the leading run of strictly newer releases: all before it are newer, the one at it is not |
| ReleaseSelection.GetNextRelease | lib/updater/updater.py:150-160 | the walk returns exactly `NextRelease`: IndexError for an unmatched current version, an empty feed, or an unmatched tag reached by the walk; otherwise the oldest tag of the newer run, or the first tag |
| ReleaseSelection.NextReleaseIsListed | lib/updater/updater.py:154-160 | a returned version is always a tag from the feed |
| ReleaseSelection.NewestNotNewerIsReturned | lib/updater/updater.py:154-158 | when the newest release is not newer than the current version, the newest tag is returned |
| ReleaseSelection.NearestNewerIsReturned | lib/updater/updater.py:155-159 | when the newest release is newer, the result ends the leading run of newer releases; the walk raises exactly when the release right after that run has no match |
| ReleaseSelection.AllNewerGivesLast | lib/updater/updater.py:155-160 | when every release is newer, the last tag is returned |
| ReleaseSelection.NearestNotNewest | lib/updater/updater.py:153-159 | current `1.2.0` with feed `1.5.0, 1.3.0, 1.2.5` selects `1.3.0` |
| ReleaseSelection.MinorBumpSelected | lib/updater/updater.py:153-159 | current `2.0.3` with feed `2.1.0, 2.0.3, 1.9.0` selects `2.1.0` |
| UpgradeController.HandleUpgrade | lib/updater/updater.py:42-64 | missing id: 501 "404 - Unknown action"; wrong id: 501 "501 - Invalid ID"; both leave the globals unchanged. A valid id while upgrading changes nothing and answers `cabernet.STATUS + STATUS`. A valid id otherwise raises the flag, clears both buffers, launches once and answers the empty status |
| UpgradeController.Restart | lib/updater/updater.py:190-194 | with no restart task: IndexError and nothing queued; otherwise `runtask` for the first task is appended to the scheduler queue and nothing else changes |
| UpgradeController.RunUpgrade | lib/updater/updater.py:162-187 | the upgrade thread always ends with the flag down, and adds the app's text to `cabernet.STATUS` |
| UpgradeController.FailedUpgradeNeverRestarts | lib/updater/updater.py:170-174 | a failed upgrade appends only the "failed" marker and never queues a restart |
| UpgradeController.SucceededUpgradeRestarts | lib/updater/updater.py:176-187 | a successful upgrade appends the plugin line, the 3-2-1 countdown and the success marker in order; the flag is cleared right before the restart is queued; with no restart task the thread raises IndexError after clearing the flag |
| UpgradeController.SingleFlight | lib/updater/updater.py:53-60 | over any run of requests before the thread finishes: while upgrading nothing changes, and exactly one thread is launched iff the flag was down and some request had the right id |
| UpgradeController.HandleUpgradeConsistent | lib/updater/updater.py:53-60 | the handler keeps `STATUS` equal to the text appended since the last clear, and the flag equal to its last change |
| UpgradeController.RunUpgradeConsistent | lib/updater/updater.py:168-187 | the upgrade thread only appends to `STATUS`, so the same invariant holds after it |
| UpgradeController.RetriggerAfterFinish | lib/updater/updater.py:53-60 | after either outcome, the next valid request launches a fresh upgrade with empty buffers |
| UpgradeController.UpgradeGlobals.constructor | lib/updater/updater.py:38-39 | the globals start with the flag down, empty buffers and no effects |
| UpgradeController.UpgradeGlobals.Upgrade | lib/updater/updater.py:42-64 | the handler updates the object's fields and replies exactly as `HandleUpgrade` |
| UpgradeController.UpgradeGlobals.UpgradeApp | lib/updater/updater.py:162-187 | the thread body updates the fields step by step to exactly the state `RunUpgrade` gives |
| UpgradeController.UpgradeGlobals.RestartApp | lib/updater/updater.py:190-194 | the enqueue changes the queue exactly as `Restart` |
| ZipDownload.ReadsNeeded | lib/updater/updater.py:199-209 | non-empty chunks of at most 524288 bytes: a body of n bytes took between ceil(n / 524288) and n reads |
| ZipDownload.HttpBody.Read | lib/updater/updater.py:206 | a read returns a prefix of the remaining body of at most n bytes; it is empty only at the end or for n = 0 |
| ZipDownload.OutFile.Write | lib/updater/updater.py:209 | a write appends the chunk |
| ZipDownload.DownloadZip | lib/updater/updater.py:198-209 | the file receives exactly the whole body in read order; the body is consumed; every chunk was a non-empty read of at most 524288 bytes |
| PluginCatalog.QueryPlugins | lib/plugins/plugin_manager/plugins_form_html.py:110-113 | the query returns exactly the database definitions passing every given filter |
| PluginOrder.StrLeTotal | lib/plugins/plugin_manager/plugins_form_html.py:360 | Python string order is total |
| PluginOrder.StrLeTrans | lib/plugins/plugin_manager/plugins_form_html.py:360 | Python string order is transitive |
| PluginOrder.StrLeAntisym | lib/plugins/plugin_manager/plugins_form_html.py:360 | Python string order is antisymmetric |
| PluginOrder.SortByIdSpec | lib/plugins/plugin_manager/plugins_form_html.py:360 | the sort yields ascending ids and a permutation of its input |
| PluginOrder.SortByIdStable | lib/plugins/plugin_manager/plugins_form_html.py:360 | definitions with equal ids keep their database order |
| PluginOrder.StableSortIsUnique | lib/plugins/plugin_manager/plugins_form_html.py:360 | any arrangement that is sorted by id and keeps the order among equal ids is the model's sort, so the model agrees with `sorted` |
| PluginsForm.LookupConfigSize | lib/plugins/plugin_manager/plugins_form_html.py:432-449 | a width, when there is one, is one of 0, 16, 48, 128, 180, 270 |
| PluginsForm.SizeTableRoundTrip | lib/plugins/plugin_manager/plugins_form_html.py:432-449 | a size text maps to a width iff that width's label is the text (`None`, `Tiny(16)`, `Small(48)`, `Medium(128)`, `Large(180)`, `X-Large(270)`); any other text has no width |
| PluginsForm.FullSizeHasNoWidth | lib/plugins/plugin_manager/plugins_form_html.py:446-447 | `Full-Size` has no width |
| PluginsForm.TileOf | lib/plugins/plugin_manager/plugins_form_html.py:361-399 | the badge appears iff listing installed plugins and latest differs from current, and it names latest; the version text is current's text when installed and empty otherwise; the tile is internal iff not external |
| PluginsForm.Tiles | lib/plugins/plugin_manager/plugins_form_html.py:360-402 | the listing raises KeyError exactly when a definition lacks `latest` |
| PluginsForm.ListedDefnsSpec | lib/plugins/plugin_manager/plugins_form_html.py:354-360 | the listed definitions are the database's definitions of the requested kind, sorted by id |
| PluginsForm.ListingFails | lib/plugins/plugin_manager/plugins_form_html.py:371 | the listing fails exactly when some definition of the requested kind has no `latest` key |
| PluginsForm.ListingOrdered | lib/plugins/plugin_manager/plugins_form_html.py:360 | tiles come in ascending plugin id order |
| PluginsForm.ListingCovers | lib/plugins/plugin_manager/plugins_form_html.py:354-402 | every definition of the requested kind has its tile |
| PluginsForm.ListingFromDb | lib/plugins/plugin_manager/plugins_form_html.py:354-402 | every tile is the tile of a definition of the requested kind |
| PluginsForm.CatalogShowsNoVersion | lib/plugins/plugin_manager/plugins_form_html.py:373-379 | on the catalog tab no tile has a badge or a version |
| PluginsForm.InstalledBadge | lib/plugins/plugin_manager/plugins_form_html.py:373-377 | on the installed tab each plugin's tile shows its current version, with the badge naming latest iff latest differs from current |
| PluginsForm.Normalised | lib/plugins/plugin_manager/plugins_form_html.py:240-241 | a truthy `latest` is kept; a missing, None or empty one becomes None |
| PluginsForm.NormaliseIdempotent | lib/plugins/plugin_manager/plugins_form_html.py:240-241 | normalising in the header and again in the section is the same as normalising once |
| PluginsForm.DetailOf | lib/plugins/plugin_manager/plugins_form_html.py:243-247 | the upgrade button appears iff the normalised latest differs from current, and names the latest shown |
| PluginsForm.PluginDetailSpec | lib/plugins/plugin_manager/plugins_form_html.py:109-122 | `get_plugin` raises "Unknown Plugin: id" exactly when no definition has that repo and id; otherwise it shows such a definition |
| PluginsForm.UpgradeToNone | lib/plugins/plugin_manager/plugins_form_html.py:240-247 | a current version with no `latest` key offers "Upgrade to None" |
| PluginsForm.VersionRecord.NormaliseLatest | lib/plugins/plugin_manager/plugins_form_html.py:240-241 | in place: `latest` becomes its normalised value and `current` is unchanged |
| PluginsForm.AreaFormValidates | lib/plugins/plugin_manager/plugins_form_html.py:411-425 | the form raises CabernetException "Unknown Tab: area" iff the area is neither My_Plugins nor Catalog; the listing never raises it |
| PluginsForm.PluginsFormHtml.constructor | lib/plugins/plugin_manager/plugins_form_html.py:96-103 | a new form has no area |
| PluginsForm.PluginsFormHtml.FormPlugins | lib/plugins/plugin_manager/plugins_form_html.py:353-402 | the loop builds exactly the `Listing` tiles, or stops with KeyError |
| PluginsForm.PluginsFormHtml.Form | lib/plugins/plugin_manager/plugins_form_html.py:411-425 | the form is exactly `AreaForm` of the current area |
| PluginsForm.PluginsFormHtml.Get | lib/plugins/plugin_manager/plugins_form_html.py:105-107 | `get` records the area and renders that tab |
| PluginsForm.PluginsFormHtml.GetPlugin | lib/plugins/plugin_manager/plugins_form_html.py:109-122 | the detail page with in-place normalisation is exactly `PluginPage` |
| PluginsForm.GetPluginsFormHtml | lib/plugins/plugin_manager/plugins_form_html.py:30-62 | the GET handler answers exactly `GetResponse` of the query's area, plugin and repo |
| PluginsForm.GetOutcomes | lib/plugins/plugin_manager/plugins_form_html.py:38-62 | GET answers 200 or 404, or lets a listing KeyError escape. No parameters: "Badly formed request". Unknown tab: "Badly formed area request". With plugin and repo, "Badly formed plugin request" iff the plugin is unknown |
| PluginsForm.AreaTakesPrecedence | lib/plugins/plugin_manager/plugins_form_html.py:42-49 | a non-empty area decides the answer whatever plugin and repo are |
| PluginsForm.HalfPluginRequest | lib/plugins/plugin_manager/plugins_form_html.py:50-62 | without a non-empty area, plugin without repo (or the reverse) is "Badly formed plugin/repo request" |
| PluginsForm.PostResponse | lib/plugins/plugin_manager/plugins_form_html.py:67-90 | every POST answers 200 or 404, and the only exception that escapes is IndexError |
| PluginsForm.PostOutcomes | lib/plugins/plugin_manager/plugins_form_html.py:67-90 | POST answers 404 "Badly formed request" iff a field is missing or an empty list. The manager is called exactly for deletePlugin and installPlugin, with the first ids, and its results are answered with 200. Any other non-empty action answers 200 with "doing something else" and the action's first character. IndexError exactly for an empty action string |
| PluginsForm.PostUsesFirstValues | lib/plugins/plugin_manager/plugins_form_html.py:72-75 | only the first value of each form field affects the answer |

## Left out

- The thread that runs `upgrade_app` and the race on `IS_UPGRADING`. The trigger is a sequential check-and-set, and the thread body is a separate call.
- `UpgradeController.UpgradeGlobals.Upgrade`: the reply is computed as if the thread had not started yet. In the source it may already have appended to `STATUS`.
- `time.sleep` calls: timing only.
- `CabernetUpgrade` (`lib/updater/cabernet.py` is not part of this model). Its result and its text in `cabernet.STATUS` are parameters. Its constructor and `upgrade_app()` (lib/updater/updater.py:169-170) are assumed to return and not raise. `UpgradeController.RunUpgrade` (the flag always ends down) and `UpgradeController.RetriggerAfterFinish` hold under this assumption.
- `DBScheduler.get_tasks`: the restart task list is a parameter. Only the queued message is modelled.
- `DBPlugins` (`lib/db/db_plugins.py` is not part of this model). The query is modelled as an order-keeping filter on a sequence of definitions. Instance lookups are not modelled.
- `PluginManager.delete_plugin` and `install_plugin`: their side effects are not modelled. Their result is the parameter `managerResults`. The `PluginManager` constructor and both calls (lib/plugins/plugin_manager/plugins_form_html.py:77-82) are assumed to return and not raise. `PluginsForm.PostResponse` (IndexError is the only exception that escapes) holds under this assumption.
- Network and file I/O in `download_zip`: the request, headers, save path, opening and closing, and transport or write errors. The response body and the file are in-memory objects.
- The `except KeyError` branch of `upgrade` (lib/updater/updater.py:65-67). The keys read in the `try` are `id` (at lines 49 and 58, both after `'id' in` is checked) and the fixed template `web_templates['htmlError']` (at lines 51 and 64), which is assumed present, so the model has no path to it.
- `check_for_updates`, `scheduler_tasks`, `update_version_info`, `import_manifest`, `load_manifest`, `save_manifest` and `github_releases`, with its dead code. None of them is part of the modelled core.
- The unused `version_re.match` at lib/updater/updater.py:152. The config lookup of the current version is a parameter.
- Floating-point rounding of `float("X.Y")`: keys are exact decimals. They agree with floats for digit strings of realistic length.
- `\d` matching non-ASCII Unicode digits: only ASCII digits are modelled.
- HTML literals, `header`/`body` wrappers, `get_menu_section`, the other fields shown by the header and section, logging, and `web_templates` formatting. Pages and responses are abstract values.
- KeyErrors from missing keys other than `version.latest`. Definitions and config are assumed to have `id`, `repoid`, `name`, `external`, `version.current` and `thumbnail_size` (the listing). On the detail page they are assumed to have `summary`, `description`, `dependencies`, `source`, `license`, `provider-name`, `category` and `website` (lib/plugins/plugin_manager/plugins_form_html.py:214-321). The GET handler catches only `CabernetException`, so a missing one of these would escape it; `PluginsForm.GetOutcomes` holds under this assumption. Every release entry of the feed is assumed to have `tag_name` (lib/updater/updater.py:154-159).
- POST form fields are assumed to be lists of strings, as the handler's indexing expects.
- `ZipDownload.HttpBody.Read`: how many bytes a short read returns is a nondeterministic choice, not the transport's actual behaviour.
