# Episode finder (holo) — a Dafny model

This project models `src/module_find_episodes.py` of holo. That module finds new anime episodes and announces each one once on Reddit. It covers:

- **`safe_format`** (`SafeFormat`): `str.format_map` over a dictionary whose missing keys answer with their own `{name}` text. The model covers named fields and the `{{` / `}}` escapes. `Render` returns `None` where Python would raise, or where the template uses syntax outside the model.
- **The block generators** (`Blocks`): `_gen_text_spoiler`, `_gen_text_streams`, `_gen_text_links` and `_gen_text_discussions`.
  - Each is a specification function over a read-only database value `Db`.
  - The three loops are also methods. Each method is proved equal to its function.
  - A shared lemma (`CollectFilterMap`) says that a loop which appends a mapped line for each element passing a filter builds the filtered, mapped list in order.
- **The composer** (`Composer`): `_format_post_text`, `_create_post_contents` and `_create_reddit_post`.
  - The four conditional block passes run in source order. Each re-renders the previous pass's output, so text inserted early is rescanned later.
  - Then comes the final pass with `show_name`, `episode` and `episode_name`, then `strip()`.
- **The episode processor** (`Processor`): `_process_new_episode`.
  - It runs against a `Store` class, which holds the database's posted episodes and shows as mutable fields.
  - The method is proved equal to the specification function `Process`.
- **The driver** (`Driver`): `main`.
  - The dedicated pass is a nested loop over enabled services and their streams.
  - The generic pass then visits each show that has no stream or is delayed. For each show it tries the generic services in order and processes only the first episode found.
  - Each loop is a method proved against a fold (`CheckStreams`, `DedicatedPass`, `CheckGeneric`, `GenericPass`).
  - The lemmas over those folds prove what a whole run keeps:
    - posts are only added, never duplicated;
    - nothing happens after an exception;
    - nothing changes in debug mode.

Supporting modules:

- `Text` models the string builtins the module uses: `in`, `strip`, `"\n".join` and `str(int)`. It also defines `Lines`, a model of `split("\n")`, which the module does not call; it serves only to count a block's lines (`Blocks.DiscussionsLineCount`).
- `Models` holds the records and the read-only database queries.
- `Wrappers` holds `Option`.

The network, the scrapers and the database engine are parameters:

- `Handlers` carries the service and link handlers, as functions.
- `Platform` carries the Reddit submission and short-link calls, as functions.
- `Db` is the database's contents.

Two behaviours of the source are easy to misread; the model follows the code:

- The streams block is `*None*` only when the show has no stream at all. When streams exist but none qualifies, the block is the empty join (`Blocks.StreamsBlockNoStreams`, `Blocks.StreamsBlockNoneQualify`).
- Composing a post can raise: a missing entry in the format table, a malformed format, a stream whose service is missing, or a link whose site is missing. Such an exception is not turned into "no URL". It leaves `_process_new_episode` and ends `main` (`Processor.Outcome.Aborted`, `Driver.Run.halted`).

## Model

| member | source | states |
|---|---|---|
| SafeFormat.RenderNeverFailsOnMissingKeys | src/module_find_episodes.py:165-177 | whether `safe_format` fails depends only on the template, never on which keys are supplied: it succeeds exactly for well-formed templates |
| SafeFormat.ParseIffWellFormed | src/module_find_episodes.py:169-177 | the template parser accepts exactly the templates made of literal text, `{{`/`}}` escapes and named fields |
| SafeFormat.UnparseParse | src/module_find_episodes.py:169-177 | writing out the parse of an accepted template gives back the template |
| SafeFormat.ParseUnparse | src/module_find_episodes.py:169-177 | parsing the written form of valid pieces gives back those pieces |
| SafeFormat.RenderPlaceholder | src/module_find_episodes.py:165-177 | a `{name}` placeholder becomes its supplied value, or stays `{name}` when the key is missing; the brace-free text around it is kept |
| SafeFormat.RenderField | src/module_find_episodes.py:165-177 | a template that is a single field renders to that field's value, or to `{name}` when the key is missing |
| SafeFormat.RenderTwoFields | src/module_find_episodes.py:165-177 | `"{a} and {b}"`-shaped templates: each field is replaced or echoed independently, so `a` supplied alone gives `a`'s value, the middle text, then `{b}` |
| SafeFormat.UnusedValuesIgnored | src/module_find_episodes.py:169-177 | values whose keys the template does not name do not affect the output |
| SafeFormat.ExpandAgree | src/module_find_episodes.py:165-177 | expansion depends only on the values of the keys the pieces name |
| SafeFormat.RenderPieces | src/module_find_episodes.py:169-177 | a template written from valid pieces renders to their expansion |
| SafeFormat.Parse | src/module_find_episodes.py:177 | every piece of a successful parse is a literal or a named field with a usable key: non-empty and not made of decimal digits alone, in any script Python counts as decimal |
| SafeFormat.ParsePositional | src/module_find_episodes.py:169-177 | a field named by decimal digits alone (ASCII or any other Unicode decimal digits, such as `{٣}`), or by nothing, is positional, so `format_map` raises on the template |
| Text.Strip | src/module_find_episodes.py:113 | the result of `strip()` has no whitespace at either end |
| Text.StripSurrounds | src/module_find_episodes.py:113 | `strip()` removes only whitespace, and only from the two ends: the result is a slice of the input with whitespace on both sides |
| Text.StripStripped | src/module_find_episodes.py:113 | text with no outer whitespace is unchanged by `strip()` |
| Text.StripIdempotent | src/module_find_episodes.py:113 | `strip()` is idempotent |
| Text.ContainsAt | src/module_find_episodes.py:102-108 | `token in text` holds exactly when the token occurs at some offset of the text |
| Text.LinesOfJoin | src/module_find_episodes.py:135 | splitting a newline-join of newline-free lines gives back those lines |
| Text.IntToStringRoundTrip | src/module_find_episodes.py:100-112 | the decimal text of any integer, negative included, is a numeral that `int()` reads back as the same integer |
| Text.NatToStringDigits | src/module_find_episodes.py:112 | `str(n)` of a natural number is a non-empty run of digits with no leading zero |
| Models.StreamFromShow | src/module_find_episodes.py:39 | the synthetic stream belongs to the show and has both offsets zero |
| Models.AddEpisode | src/module_find_episodes.py:70 | `add_episode` appends exactly the record (show, number, link) after the earlier records, so that record exists and every earlier one still does, and changes no other table |
| Models.SetShowDelayed | src/module_find_episodes.py:72 | `set_show_delayed` sets that show's flag, leaves its other fields and every other show as they were, and changes no other table |
| Models.UniqueAppend | src/module_find_episodes.py:62-70 | appending a record for a (show, number) with no record yet keeps the records unique |
| Models.FindService | src/module_find_episodes.py:129 | `get_service(id=...)` returns a listed service with that id, or none when no service has it |
| Blocks.SpoilerBlock | src/module_find_episodes.py:117-120 | a show adapted from a source gets `formats["spoiler"]`, raising when the entry is missing; any other show gets the empty text |
| Blocks.GenTextStreams | src/module_find_episodes.py:122-137 | the loop returns exactly the streams block of the specification function, raising where it raises |
| Blocks.StreamsBlockLines | src/module_find_episodes.py:124-135 | for a show with streams, the block is the newline-join, in stream order, of one line per active stream whose service is enabled and used in posts |
| Blocks.StreamsBlockNoStreams | src/module_find_episodes.py:125-137 | a show with no stream gets `*None*` |
| Blocks.StreamsBlockNoneQualify | src/module_find_episodes.py:125-135 | a show with streams none of which qualifies gets the empty text, not `*None*`, whatever the `stream` format holds, provided every active stream names a known service |
| Blocks.GenTextLinks | src/module_find_episodes.py:139-150 | the loop returns exactly the links block of the specification function, raising where it raises |
| Blocks.LinksBlockLines | src/module_find_episodes.py:141-150 | the links block is the newline-join, in link order, of one line per link whose site is enabled |
| Blocks.GenTextDiscussions | src/module_find_episodes.py:152-161 | the loop returns exactly the discussions block of the specification function, raising where it raises |
| Blocks.DiscussionsBlockTable | src/module_find_episodes.py:155-159 | a show with posted episodes gets the header followed by one row per episode, oldest first, joined by newlines |
| Blocks.DiscussionsLineCount | src/module_find_episodes.py:155-159 | with single-line rows, a show with n posted episodes gets a block of exactly 1 + n lines |
| Blocks.DiscussionsBlockEmpty | src/module_find_episodes.py:160-161 | a show with no posted episode gets `discussion_none`, and a missing entry raises |
| Blocks.CollectFilterMap | src/module_find_episodes.py:126-133 | a loop that appends `g(x)` for each element passing `p` and skips the rest builds the filtered, mapped list in order |
| Blocks.CollectRaises | src/module_find_episodes.py:126-133 | once an iteration of a generator's loop raises, the whole generator raises |
| Composer.FillBlock | src/module_find_episodes.py:102-109 | a block pass consults its generator only when `{key}` is in the text; otherwise the text is kept unchanged |
| Composer.EpisodeNameSuffix | src/module_find_episodes.py:111 | the suffix is empty exactly when the episode has no name or an empty one, and otherwise is `": "` followed by the name |
| Composer.PostText | src/module_find_episodes.py:98-113 | a composed text has no whitespace at either end |
| Composer.PostContents | src/module_find_episodes.py:89-96 | the title and the body are `_format_post_text` of the title and body templates with the same final-pass values (the display number and the episode name); composing raises exactly when either part raises; both parts are stripped |
| Composer.CreateRedditPost | src/module_find_episodes.py:78-87 | raising exactly when composing raises; with `submit` off the result is `None`; with `submit` on, the result is the short link of the submitted post when the platform returns one and `None` when it returns none; a URL is returned only in that case |
| Composer.DisplayNumber | src/module_find_episodes.py:89-112 | with the title template `{episode}`, the title of the composed post is the number of the episode the composer receives plus the stream's display offset, in decimal, whatever its sign |
| Composer.EpisodeValue | src/module_find_episodes.py:100-113 | the final pass's `episode` value survives `strip()` and reads back as the display number |
| Composer.LonePlaceholder | src/module_find_episodes.py:102-113 | a template that is one final-pass placeholder composes to that value, stripped, or to `{name}` when the key is unknown |
| Composer.SpoilerRescanned | src/module_find_episodes.py:102-112 | a spoiler text that is itself a placeholder, e.g. `{show_name}`, is expanded by the final pass, because later passes rescan inserted text |
| Composer.SpoilerOmittedWithoutSource | src/module_find_episodes.py:117-120 | a show not adapted from a source gets an empty spoiler, whatever the format table says |
| Composer.SpoilerWithoutFormatRaises | src/module_find_episodes.py:102-120 | for a show adapted from a source, a template asking for `{spoiler}` with no `spoiler` entry in the format table makes composing raise |
| Composer.OnlySpoilerPass | src/module_find_episodes.py:102-109 | once the spoiler pass leaves no other block token, the later passes change nothing |
| Processor.Process | src/module_find_episodes.py:54-76 | the database changes only on a commit; `NotLive` exactly when the episode is not live; `AlreadySeen` exactly when the canonical number is already recorded for the stream's show; a commit needs a live, new episode and `debug` off, happens only when `_create_reddit_post` returned that URL, and stores under the canonical number; `NotSubmitted` exactly when a live new episode's post returned `None`, `Aborted` exactly when composing it raised |
| Processor.ProcessNewEpisode | src/module_find_episodes.py:54-76 | the method leaves the store in the state and returns the outcome of `Process` |
| Processor.Store.AddEpisode | src/module_find_episodes.py:70 | the store's contents become those of `add_episode` |
| Processor.Store.SetShowDelayed | src/module_find_episodes.py:72 | the store's contents become those of `set_show_delayed` |
| Processor.ProcessKeepsUnique | src/module_find_episodes.py:62-70 | processing never stores a second record for a (show, number) |
| Processor.ProcessTwice | src/module_find_episodes.py:62-66 | after a commit, processing the same episode again is `AlreadySeen` and changes nothing |
| Processor.NotSubmittedLeavesNoRecord | src/module_find_episodes.py:58-87 | when the post is composed but the platform returns no post, or `debug` keeps it back, the database is unchanged, and a live new episode ends `NotSubmitted` with no record, so a later run tries again |
| Processor.DebugChangesNothing | src/module_find_episodes.py:67-87 | with `debug` set, processing never changes the database |
| Processor.CommitEffect | src/module_find_episodes.py:60-72 | a commit appends exactly one record with the canonical number and the short link of the post the platform returned, clears the show's delayed flag, keeps the show's other fields, and leaves every other show and table unchanged |
| Processor.PostedTitle | src/module_find_episodes.py:58-112 | with the title template `{episode}`, a committed post is titled with the service's number minus the stream's remote offset plus its display offset |
| Processor.DelayedShowPosted | src/module_find_episodes.py:58-72 | a delayed show whose live, new episode 5 on its synthetic stream is posted gets record 5 and is no longer delayed |
| Driver.CheckServiceStreams | src/module_find_episodes.py:15-31 | the inner loop leaves the store as the fold over the service's streams does: absent or disabled shows and empty handler results are skipped |
| Driver.CheckServices | src/module_find_episodes.py:11-31 | the dedicated pass leaves the store as the fold over the enabled services does, in order, stopping at an exception |
| Driver.CheckShowGeneric | src/module_find_episodes.py:39-52 | one show of the generic pass tries only generic services, in service order, and processes only the first episode found |
| Driver.FirstGeneric | src/module_find_episodes.py:40-50 | the index found is a generic service with an episode, and no earlier service is |
| Driver.CheckGenericFirst | src/module_find_episodes.py:40-50 | the first generic service with an episode is the one processed, whatever later services would report |
| Driver.CheckGenericNone | src/module_find_episodes.py:40-52 | a show with no generic service reporting an episode is left alone |
| Driver.OtherShows | src/module_find_episodes.py:34 | the generic pass's shows are exactly those without a stream or marked delayed, each once |
| Driver.CheckOtherShows | src/module_find_episodes.py:34-52 | the generic pass visits each show of that set at most once and, unless an exception stops it, all of them; the store ends as the fold over the visited shows |
| Driver.VisitShows | src/module_find_episodes.py:37-52 | the loop over the shows leaves the store as the fold over the shows it checked, all of them unless processing raised |
| Driver.Enumerate | src/module_find_episodes.py:34-37 | iterating a set yields each member exactly once |
| Driver.FindEpisodes | src/module_find_episodes.py:7-52 | `main` runs the dedicated pass and then, if it did not raise, the generic pass over the shows selected after it |
| Driver.CheckStreamsHalted | src/module_find_episodes.py:17-31 | after an exception, no later stream of the service is checked |
| Driver.DedicatedHalted | src/module_find_episodes.py:12-31 | after an exception, no later service is checked |
| Driver.GenericHalted | src/module_find_episodes.py:37-52 | after an exception, no later show of the generic pass is checked |
| Driver.StepGrows | src/module_find_episodes.py:54-76 | one call of the processor only adds records, keeps them unique, and changes nothing but records and delayed flags: every show keeps its other fields and no show appears or disappears |
| Driver.DedicatedGrows | src/module_find_episodes.py:11-31 | the dedicated pass only adds records, keeps them unique, and changes no show field but the delayed flag |
| Driver.CheckGenericAtMostOne | src/module_find_episodes.py:37-52 | checking one show generically adds at most one record, for that show only, and clears the flag of a delayed show it posts for |
| Driver.GenericGrows | src/module_find_episodes.py:37-52 | the generic pass only adds records, keeps them unique, and changes no show field but the delayed flag |
| Driver.RunGrows | src/module_find_episodes.py:7-52 | a whole run, in whatever order the generic pass visits its shows, never stores a post twice and never loses one |
| Driver.DedicatedDry | src/module_find_episodes.py:11-31 | with `debug` set the dedicated pass changes nothing |
| Driver.GenericDry | src/module_find_episodes.py:37-52 | with `debug` set the generic pass changes nothing |

## Left out

- Network I/O is not modelled: `reddit.init_reddit`, `submit_text_post` and `get_shortlink_from_id`. Submission and the short link are the functions of `Platform`, and initialisation is left out.
- Service and link handler internals are not modelled (`get_latest_episode`, `get_stream_link`, `get_link`, `is_generic`). They are the functions of `Handlers`. Each one gives a result determined by its arguments, so the same call twice gives the same answer.
- The handler registry is not modelled: looking a handler up by service type, and the failure when a service has no handler.
- Logging is not modelled: `debug`, `info` and `error`.
- The database engine is not modelled. `Db` is the contents, listed in the order the queries return them. The model assumes these filters:
  - `get_streams(service=...)` selects by service;
  - `get_shows(missing_stream=True)` selects the shows no stream refers to;
  - `get_episodes(show)` returns that show's records in insertion order.
- Show identity in the generic pass is by id. The union of two sets of show objects is taken as a union of ids, so a show that is both missing a stream and delayed is visited once.
- The generic pass visits its set in an unspecified order. `Driver.CheckOtherShows` and `Driver.FindEpisodes` return that order as a ghost result and prove their results for whichever order is used.
- `_process_new_episode` changes `episode.number` in place to the canonical number. The model does not mutate the episode. It passes a copy with the canonical number (`Processor.Canonical`) to the composer, which is the only reader of the changed field. `main` does not read the episode after the call, so the in-place update itself is not modelled.
- `Db` does not tie a show record to its key: the model reads `db.shows[k]` for a stream's show `k` and then uses that record's own `id`, as the source does. It does not assume or prove `db.shows[k].id == k`. The source relies on the database for this, and the model leaves it out.
- `Stream.from_show` is not modelled beyond its offsets and its show: `Models.StreamFromShow` sets only what `main` relies on.
- SafeFormat.Render: the model does not cover the full `str.format_map` grammar: format specs, conversions, attribute and index fields, positional fields. Decimal digits are those of Unicode 15.0. A template using any of them renders to `None`. Python would raise for some of these and format the others; the model treats both alike as unsupported.
- Composer.PostText: the `episode` value of the final pass is the integer's decimal text. Python formats the `int` itself, which gives the same text for a plain `{episode}` field but differs under format specs, and those are outside the model.
