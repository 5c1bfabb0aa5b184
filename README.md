# Caución rate bot: change detection, cross-post rule and subscriber set

A Dafny model of the decision logic of the caución bot, a program that watches
the short-term money-market (caución) rates quoted for a few fixed tenors and
tells people when they move.

- `twitter_bot.dfy` (module `TwitterBot`) models the four-tenor cross-post path
  of `twitter_bot.py`:
  - `calculate_changes` compares two rate dicts over the tenors 1d, 2d, 3d and 7d.
  - `should_tweet` decides whether a change dict is worth a post.
  - `format_tweet` renders the post text.
  Rates are exact `real`s. The module-level functions `Diff`, `Warrants` and
  `TweetText` are the specifications. The methods `CalculateChanges`,
  `ShouldTweet` and `FormatTweet` keep the source's loops and are proved
  equal to those functions.
- `telegram_bot.dfy` (module `TelegramBot`) models the three-tenor Telegram
  revision in `main.py`:
  - `PPIConfig.from_environment` and `format_rates_message` as functions.
  - `CaucionBot` as a class whose `subscribers: set<int>` field is updated in
    place by `/suscribir`, `/pausar` and the periodic broadcast.
- `outcomes.dfy` (module `Outcomes`) holds `Option`, `Result` and `KeyError`.
  They stand for Python's `None` and for raised exceptions.

Inputs that come from the outside world are parameters:
- the process environment is a `map<string, string>`;
- the rates that `get_caucion_rates` fetched are an `Option<map<string, string>>`;
- the `:.2f` number formatter is a function `real -> string`;
- the outcome of each Telegram `send_message` call is the set `unreachable`,
  the chat ids whose send raises.

A `KeyError` from subscripting a dict is modelled as a `Failure` result,
`KeyError(key)`. A `ValueError` from an unsupported environment is
`Failure(UnsupportedEnvironment(env))`.

## Model

| member | source | states |
|---|---|---|
| `TwitterBot.ChangeFor` | twitter_bot.py:280-295 | the entry for one tenor: it is the zero-base form exactly when the old rate is 0, and an entry marked changed always has a non-zero absolute delta |
| `TwitterBot.Diff` | twitter_bot.py:277-297 | the change dict has an entry for exactly the tenors 1d, 2d, 3d and 7d, whatever keys the inputs have |
| `TwitterBot.CalculateChanges` | twitter_bot.py:277-297 | the loop over the tenors builds exactly the change dict `Diff` describes |
| `TwitterBot.MoveReconstructsNewRate` | twitter_bot.py:286-293 | for a non-zero old rate the entry is a full one that records the old and the new rate as given, and the new rate can be read back from it: old plus the absolute delta, or old grown by the relative delta in percent |
| `TwitterBot.ChangedIffBeyondEps` | twitter_bot.py:284-294 | a tenor is marked changed exactly when its old rate is non-zero and the rate moved by more than 0.001, up or down |
| `TwitterBot.ZeroBaseUnchanged` | twitter_bot.py:281-285 | a zero or missing old rate gives the entry absolute 0, percentage 0, unchanged, whatever the new rate is; nothing is divided by zero |
| `TwitterBot.DiffSelfUnchanged` | twitter_bot.py:287-294 | comparing a rate dict with itself marks every tenor unchanged, with zero deltas |
| `TwitterBot.DiffReadsOnlyTenors` | twitter_bot.py:280-282 | the result depends only on the four tenors' values, with a missing tenor read as 0; other keys such as `timestamp` are ignored |
| `TwitterBot.Warrants` | twitter_bot.py:67-76 | the posting rule; it can hold only for a present, non-empty change dict |
| `TwitterBot.ShouldTweet` | twitter_bot.py:67-76 | the early-return scan answers true exactly when some entry is changed and rose by at least 5.0 points; it answers false for `None` and for an empty dict |
| `TwitterBot.WarrantsDiffIff` | twitter_bot.py:67-76 | on a fresh diff, a post is due exactly when some tenor with a non-zero old rate rose by 5.0 points or more (both directions) |
| `TwitterBot.DropsNeverWarrant` | twitter_bot.py:209-223 | when no tenor rose, the rule never posts, however large the fall |
| `TwitterBot.ThresholdInclusive` | twitter_bot.py:74 | the threshold is inclusive: a rise of exactly 5.0 points posts, 4.99 does not |
| `TwitterBot.SelfTestVectors` | twitter_bot.py:180-252 | the self-test's change dicts give the verdicts it asserts: +5.5 posts; +2.0 does not; -6.0 does not; `None` does not. The lemma also states that an empty dict does not post, which comes from the guard at twitter_bot.py:69 rather than from the self-test |
| `TwitterBot.SelfTestPost` | twitter_bot.py:231-242 | for the self-test's rates and `changes_big`, the post is produced, holds the bell and the up marker, and holds the formatted 40.50 followed by "% TNA" |
| `TwitterBot.SimulatedFlowPosts` | twitter_bot.py:313-346 | the simulated flow (1d from 18 to 25) is posted |
| `TwitterBot.TweetText` | twitter_bot.py:78-97 | the post `format_tweet` returns; a produced post starts with the two heading lines, and a raised `KeyError` names a tenor missing from the rates or the missing time stamp |
| `TwitterBot.FormatTweet` | twitter_bot.py:78-97 | the message grown with `+=` equals `TweetText`, including the `KeyError` for the first missing tenor or time stamp |
| `TwitterBot.TweetListsTenorsInOrder` | twitter_bot.py:80-95 | with all keys present the post is the two heading lines, then exactly one line per tenor in the order 1d, 2d, 3d, 7d, then the time stamp line |
| `TwitterBot.TweetFailsIffKeyMissing` | twitter_bot.py:84-95 | `format_tweet` raises exactly when a tenor rate or the time stamp is missing from the rates |
| `TwitterBot.LineMarkers` | twitter_bot.py:85-93 | an unchanged tenor's line has no annotation; the up marker and a "+" occur in a line exactly when that tenor is changed and rose; the down marker occurs exactly when it is changed and did not rise |
| `TelegramBot.FromEnvironment` | main.py:33-49 | `from_environment`: an unsupported value raises; in a built configuration each key is present exactly when its environment's variable is set |
| `TelegramBot.FromEnvironmentRoundTrip` | main.py:33-49 | production gives `sandbox = false`, sandbox gives `sandbox = true`, any other value raises; the flag names the environment back, and the keys come from that environment's own variable pair |
| `TelegramBot.FormatRatesMessage` | main.py:94-105 | `format_rates_message`: `None` or empty rates give the fixed error text, and a raised `KeyError` names a key that really is missing from the rates |
| `TelegramBot.FetchErrorIffNoRates` | main.py:94-105 | the fixed error text is produced exactly when the rates are `None` or empty; a rates table is never mistaken for it |
| `TelegramBot.FormatRatesRaisesIffKeyMissing` | main.py:99-103 | for non-empty rates, the message raises exactly when one of `24h`, `48h`, `72h`, `timestamp` is missing |
| `TelegramBot.CaucionBot.constructor` | main.py:53-57 | a new bot keeps its token and configuration and has no subscribers |
| `TelegramBot.NewCaucionBot` | main.py:53-57 | creating the bot raises exactly when `from_environment` does; otherwise the bot is fresh, uses that configuration and has no subscribers |
| `TelegramBot.CaucionBot.Subscribe` | main.py:131-144 | replies "already subscribed" exactly when the id was present; the set afterwards is the old set plus that id |
| `TelegramBot.CaucionBot.Pause` | main.py:146-155 | replies "paused" exactly when the id was present; the set afterwards is the old set minus that id |
| `TelegramBot.SubscribeThenPause` | main.py:131-155 | subscribing then pausing an id that was not subscribed gives both success replies and restores the set |
| `TelegramBot.CaucionBot.SendRatesToSubscribers` | main.py:161-189 | nothing is sent with no subscribers; if building the message raises, nothing is sent and the set is kept; otherwise every subscriber gets exactly one attempt with the same message, and the set becomes the old set minus the ids whose send raised |
| `TelegramBot.Failed` | main.py:175-185 | the `failed_subscribers` list: no longer than the tried ids, holding only ids that were tried and whose send raised, and free of repeats when the tried ids are |
| `TelegramBot.AttemptDeliveries` | main.py:175-185 | the delivery loop tries every subscriber exactly once, one failure does not stop the rest, and it collects exactly the failed ids in the order they were tried |
| `TelegramBot.FailedIff` | main.py:183-185 | an id is in `failed_subscribers` exactly when it was tried and its send raised |
| `TelegramBot.FailedCoversUnreachable` | main.py:187-189 | once every subscriber was tried, the ids the second loop discards are exactly the subscribers whose send raised |

## Left out

- Browser automation is not modelled: `TwitterBot.__init__`, `_init_driver`, `tweet` and `close` (Selenium, ChromeDriver and sleeps).
- The console drivers `test_twitter` and `simulate_flow` are not modelled as code. Their data appears only as the lemmas `SelfTestVectors`, `SelfTestPost` and `SimulatedFlowPosts`.
- The self-test's 280-character limit is not modelled. The text length depends on the number formatter, which is a parameter here.
- The PPI market-data client is not modelled: `connect_ppi` and `get_caucion_rates` (network I/O). The rates they return are a parameter.
- The Telegram plumbing is not modelled: `start_command`, `tasas_command`, `ayuda_command`, `reply_text`, `send_message`, `post_init`, `run` and `main`. This covers the five-minute job queue and the reply texts. Replies are reduced to which one was chosen, and send outcomes come from the `unreachable` oracle.
- Concurrency is not modelled. The handlers are asynchronous, so a `/suscribir` or `/pausar` can run while the broadcast awaits a send inside the loop at main.py:176. If that changes the size of the set, Python raises `RuntimeError` at the loop's next iteration. The rest of the deliveries and the pruning at main.py:188-189 are then abandoned. The model runs each handler and each broadcast to completion, so this failure is not represented.
- `db_check.py` is not modelled. It only checks environment variables and prints around a database helper that is not part of this model.
- Number formatting (`:.2f`) and the `datetime.now()` time stamps are not modelled. They are a formatter parameter and an opaque string.
- IEEE floating-point rounding is not modelled. Rates are exact reals, so the 0.001 and 5.0 boundaries are exact.
- The rendering of fetched values in the Telegram message is not modelled. main.py:100-103 turns each value into text with `str()` inside the f-string, whether it is a float price or `'N/A'`. The model takes each value as already-rendered text.
- Logging is not modelled.
- `TwitterBot.LineMarkers` assumes the number formatter writes only digits, `.` and `-`, as `:.2f` does for finite floats. Without that assumption, a formatter could print a marker itself.
- Some features are not present in the modelled files, so they are not modelled: persisted subscriptions, per-subscriber alert thresholds, market-hours gating, and the split between permanent and transient delivery failures. The code removes a subscriber after any failed send, not only after a permanent one. The model follows the code.
