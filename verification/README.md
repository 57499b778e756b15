# binance-notifier, modelled in Dafny

binance-notifier is a command-line tool. It watches the trade prices of configured
exchange markets and plays a sound when a market's price moves to the other side of its
threshold. This project models the core of that tool:

- the price classifier `getPriceState`;
- the `data` dictionary of per-market records that the `start` command builds;
- the trade callback that updates that dictionary one trade at a time and decides
  whether a notification is due;
- `renderOutput` and the redraw that overwrites the previous console block;
- the market-name sanitiser and the threshold store of `add market`;
- the choice of sound file in `notify`;
- the credential check `apiCredsExist`.

Files, one module each:

- `models.dfy`: the types of `src/models.ts`.
- `classifier.dfy`: `getPriceState`.
- `tracker.dfy`: one trade as a pure function on a record, `Step`, plus lemmas about runs of trades.
- `session.dfy`: the `start` command as the class `Watch`. Its constructor is the fill loop.
  `Apply` is the state update. `Redraw` is the cursor logic. `OnTrade` is the whole callback.
- `render.dfy`: `renderOutput` as a loop method, proved against the function `Rendered`.
- `sanitiser.dfy`, `commands.dfy`: `add market`.
- `sound.dfy`, `validators.dfy`: the sound choice and the credential check.

Prices and thresholds are `real`, because the code only compares them with `<` and `===`.
A market with no trade has price `None`; the code stores `NaN` there. Terminal colours are
the abstract `Style` tags. Numbers in the output stay abstract `Number` tokens.
`output.split('\n').length - 1` is the number of line breaks in the block, and `LineCount`
counts exactly those.

Some behaviour of the code is easy to misread; the model follows the code:

- An untraded market prints `NaN`. Its price is `NaN` (src/index.ts:88), and `?? 'NA'`
  (src/index.ts:112) only replaces `null` and `undefined`. `PriceToken` renders `None` as the
  text "NaN".
- `notified` is set to true in the same step that records the state, before the sound is
  awaited (src/index.ts:157-158), so a failed sound never undoes it.
- Nothing catches the rejection of `await notify(...)`, so a trade whose sound fails ends
  without redrawing the console (`OnTrade` with `playbackOk` false).
- Without Gilfoyle mode, `AtThreshold` has no sound name. The path handed to the player is
  then `../assets/undefined.mp3` (`Sound.PlayedPath`).

## Model

| member | source | states |
|---|---|---|
| Classifier.Classify | src/index.ts:120-126 | Total and exact. The result is Below iff price < threshold, At iff they are equal, Above iff price > threshold. It is never Unknown. |
| Classifier.ClassifyMonotone | src/index.ts:120-126 | A higher price never lands in a lower band (Below, At, Above, in that order). |
| Tracker.Step | src/index.ts:131-160 | After a trade, the record holds the price and the same threshold. Its state is the classification and is not Unknown. `notified` is true. On a first trade, the notification is due iff the record was not notified. Later, it is due iff it was not notified or the state changed. From a settled record, it is due iff the state changed, and the record stays settled. |
| Tracker.DueExactlyOnStateChange | src/index.ts:139-160 | In a run of trades from a settled record, trade i asks for a notification iff its state differs from the previous trade's state. For the first trade, the comparison is with the record's own state. So a fresh market always notifies first, and repeated trades in one band never notify twice. |
| Tracker.AfterRun | src/index.ts:129-160 | After a run of trades, the record holds the last price, classified against the unchanged threshold, and is notified. |
| Session.Watch.Start | src/index.ts:84-94 | The session keeps the configuration it was started with. Every configured market, and no other key, gets a record: no price, its configured threshold, state Unknown, not notified. Keys keep the configuration's order, and nothing has been drawn yet. |
| Session.Watch.Apply | src/index.ts:131-158 | Only the traded market's record changes, as `Step` says. The result is whether a notification is due, which happens iff the state changed. Afterwards the market is classified by the price and is notified. The session invariant holds. |
| Session.Watch.Redraw | src/index.ts:163-174 | The cursor moves up and clears only when a block was written before. It moves by the line count of the new block, which equals the height of the block written before. Then the new block is written and `logged` is set. |
| Session.Frame | src/index.ts:166-173 | The terminal operations are a move-up and a clear only when a block was written before, and they always end with writing the block. |
| Session.Watch.OnTrade | src/index.ts:129-175 | The record update does not depend on whether the sound plays. A sound is played iff a notification is due, and its path is the file chosen for the new state. When the sound fails, nothing is drawn and `logged` keeps its value. Otherwise the block for all markets is drawn in key order. |
| Render.RenderOutput | src/index.ts:97-118 | The loop builds exactly `Rendered(names, data)`: the markets' lines, in key order. |
| Render.Rendered | src/index.ts:97-118 | The block has exactly six pieces per market. |
| Render.RenderedLineAt | src/index.ts:101-113 | Line k of the block is the line of market k: padded name, price in the colour of its state, dim threshold in parentheses, line break. |
| Render.MarketLineHeight | src/index.ts:103-112 | A market's line contains one line break, plus any the name itself contains. |
| Render.RenderedHeight | src/index.ts:163-164 | The block's line count is the number of markets plus the line breaks inside names. It depends on no price, state or threshold. |
| Render.RenderedLinePerMarket | src/index.ts:163-164 | When no name contains a line break, the line count equals the number of markets. |
| Render.StateStyleInjective | src/index.ts:107-110 | Distinct states get distinct price colours under `StateStyle`, so the colour identifies the state. |
| Render.PadEnd | src/index.ts:103 | The name is padded with blanks to width 10. It is kept as it is, and only blanks are added. |
| Sanitiser.Upper | src/index.ts:63 | Upper-casing keeps the length. Each ASCII lower-case letter becomes its upper-case partner, and every other character is kept. No ASCII lower-case letter remains. |
| Sanitiser.StripSlashes | src/index.ts:63 | The result contains no '/'. A one-character string loses the character iff it is '/'. A string without '/' passes unchanged. |
| Sanitiser.StripSlashesKeeps | src/index.ts:63 | Every character other than '/' is kept as often as it occurs, and the length drops by the number of slashes. |
| Sanitiser.StripSlashesAppend | src/index.ts:63 | Removing slashes works piecewise over concatenation. With the one-character case, this fixes the result: the kept characters stay in their order. |
| Sanitiser.Trim | src/index.ts:63 | The result is a slice `s[i..j]` of the input, and everything before `i` and from `j` on is JavaScript whitespace. The result has no whitespace at either end. An already trimmed string passes unchanged. |
| Sanitiser.Sanitise | src/index.ts:63 | A stored market name has no '/', no surrounding whitespace and no ASCII lower-case letter, and is no longer than the typed name. A name typed in that form is stored exactly as typed. |
| Sanitiser.SanitiseIdempotent | src/index.ts:63 | Sanitising a sanitised name changes nothing. |
| Commands.Put | src/index.ts:68 | The name gets the target threshold and the other thresholds are unchanged. An existing key keeps its place; a new key is appended. The markets stay well formed. |
| Commands.AddMarket | src/index.ts:59-70 | The command fails, with the credential message, iff the key or the secret is unset. Otherwise the sanitised name gets the threshold, and it is appended to the key order when it was not there yet. Credentials, mode and other thresholds are unchanged. |
| Commands.AddMarketOverwrites | src/index.ts:68 | Adding the same market again keeps the key order and holds the later threshold. |
| Commands.AddMarketSanitisedKey | src/index.ts:63-68 | Adding a raw name or its sanitised form has the same outcome: the same configuration, or the same credential failure. |
| Sound.SoundAsset | src/sound.ts:11-19 | With Gilfoyle mode on, the asset is "napalm". Otherwise "above" iff Above, "below" iff Below, and no name iff At or Unknown. |
| Sound.PlayedPath | src/sound.ts:21 | The path is `../assets/<name>.mp3`, and the name can be read back from it. A missing name gives `../assets/undefined.mp3`. |
| Sound.PlayedPathInjective | src/sound.ts:21 | Different asset names give different paths. |
| Validators.ApiCredsExist | src/validators.ts:4-9 | Passes iff the key and the secret are both present and non-empty. On failure the message is exactly "API key and secret must be set prior to using the Binance API!". It only reads the two settings. |

## Left out

- The websocket subscription (src/index.ts:76-79, 129) is foreign network I/O. `OnTrade` is the callback body with `name` and `price` as parameters. It requires `name` to be a configured market; for any other name the code would throw a TypeError.
- Reading and writing the configuration file, the `argumental` wiring, and the `set key`, `set secret` and `set gilfoyle` commands are file I/O and CLI plumbing. The model takes the configuration as a `Config` value.
- `player.play` and the Promise around it are OS sound playback. Its outcome is the parameter `playbackOk`, and the absolute path that `path.resolve` makes from the module directory is not modelled.
- `chalk` escape codes and the `process.stdout` calls are terminal I/O. They are the abstract `Style` and `TerminalOp` values, and the spelling of numbers is not modelled.
- JavaScript floating point is not modelled: prices and thresholds are reals, with no NaN and no infinities. An untraded price is `None` where the code stores `NaN`.
- Session.Watch.OnTrade: other trades may run while a sound is awaited. The model runs each callback to its end, so it does not capture the order in which two such callbacks draw. It also does not capture the process exit that an unhandled rejection can cause.
- Render.PadEnd: widths are counted in characters (Unicode scalar values), not in JavaScript's UTF-16 code units. So a name holding a character outside the Basic Multilingual Plane gets one blank more than the code gives it.
- Sanitiser.Upper: only the ASCII letters are upper-cased. JavaScript's full Unicode case mapping, including mappings that change the length, is not modelled.
- Commands.Put: JavaScript lists integer-like keys first, in numeric order. The model keeps every key in insertion order.
