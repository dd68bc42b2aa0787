# modwig control-surface mirror — a Dafny model of `web/src/App.tsx`

The web front end mirrors a Bitwig controller. It keeps one socket to the
controller host, replaces its whole state snapshot with every message, and
renders pads, knobs, tracks and browser results as "neumorphic" widgets. The
widgets' shadows are computed from a base colour.

This project models the three pure cores of `App.tsx`:

- **The plugin connection** (`usePluginConnection`), module `Connection`. It
  is a total transition function `Step(config, event)` over the four socket
  events, with a fold `Run` over event sequences. A configuration holds the
  status (`CLOSED | OPEN | RECEIVING | ERROR`), the snapshot slot and a
  "close requested" flag. The flag stands for the handler's `socket.close()`.
  `JSON.parse` is an oracle: a message carries `Parsed(doc)` or `Unparsable`.
  A JSON `null` document parses successfully, so it is `Parsed(None)` and
  empties the slot.
- **The colour codec** (`luminance`), module `HexColor`. It decodes a
  lower-case `#rrggbb` colour into three bytes. Each byte is scaled by
  `1 + intensity`, clamped to 0..255 and rounded with `Math.round`. The
  result is written back as two lower-case hex digits per channel.
- **The mapping helpers**:
  - module `Shadow`: the theme, the `useNeuBoxShadow` merge and
    `neuBoxShadow`'s two shadow layers;
  - module `Widgets`: `Box` spacing, `Text` weight, and the pad and knob
    labels chosen by `Bindings`;
  - module `App`: ties the rendered faces to the connection's snapshot.

`Snapshot` holds the `State` record types, and `Wrappers` holds the `Option`
type used for JavaScript's `null`/`undefined`.

Modelling choices:
- Intensities and lengths are exact `real`s.
- `Math.round(x)` is `Floor(x + 1/2)`. `Round` computes it by a bounded
  search over 0..255, which is enough because its argument is already
  clamped. `RoundIsFloorHalf` proves the two agree.
- The product `channel * (1 + intensity)` is `Times`, written as repeated
  addition so that the solver's arithmetic stays linear. `TimesIsProduct`
  proves it equals the product.
- `FormatByte` writes a byte directly as its high and low hex digits.
  `PaddedHexIsFormatByte` proves this equals the source's
  `b.toString(16).padStart(2, '0')`, which is modelled literally by
  `ToHexString` and `PadStart`.
- An object spread `{...a, ...b}` is modelled field by field. An `Option`
  field that is `None` is a key the caller did not supply.

Two behaviours of the handlers are worth stating plainly:
- An unparsable message does not clear the snapshot. The handler
  (App.tsx:85-88) only sets `ERROR` and closes the socket, so the old
  snapshot stays until the close event arrives (`UnparsableThenClose`,
  `FacesAfterUnparsable`).
- `ERROR` and `CLOSED` are not terminal. No handler reads the status, so
  any event moves any configuration (`StatusIsMemoryless`).

Helpers that carry no contract of their own:
- `HexColor.IsColor` is the pattern
  `^#([0-9a-f][0-9a-f])([0-9a-f][0-9a-f])([0-9a-f][0-9a-f])$` at
  App.tsx:548-550. It is also `luminance`'s precondition.
- `HexColor.ParsePair` is `parseInt(colorStr, 16)` at App.tsx:554 on one
  two-digit group. `ParseFormat`, `FormatParse` and `PairDeterminedByValue`
  state what it computes.
- `App.Faces` is the snapshot that `usePluginConnection` returns
  (App.tsx:105), passed through `AppStateContext` (App.tsx:121) to
  `Bindings` (App.tsx:241). The `App` lemmas state what it shows.

## Model

| member | source | states |
|---|---|---|
| Connection.Step | web/src/App.tsx:78-97 | Only error, close and parsed-message events touch the snapshot, and each sets it to exactly its own value. The close flag is raised exactly by an unparsable message and is never lowered. The new status is fixed by the event alone: OPEN iff open, RECEIVING iff a message parsed, ERROR iff an error event or an unparsable message, CLOSED iff close. |
| Connection.RunSnapshotIsLastWrite | web/src/App.tsx:81-97 | After any event sequence, the snapshot is exactly what the last snapshot-writing event wrote. A parsed message replaces the whole snapshot, and nothing of an earlier one survives. |
| Connection.RunSnapshotUntouched | web/src/App.tsx:78-88 | A sequence of only open events and unparsable messages leaves the snapshot exactly as it was. |
| Connection.RunCloseRequested | web/src/App.tsx:85-88 | After a sequence, a close has been requested iff one was already pending or some message in the sequence failed to parse. |
| Connection.RunAppend | web/src/App.tsx:78-97 | Handling two event batches one after the other is the same as handling their concatenation. |
| Connection.StatusIsMemoryless | web/src/App.tsx:78-97 | The status after a non-empty sequence does not depend on the starting configuration: no handler reads the current status. |
| Connection.ReceivingShowsLastMessage | web/src/App.tsx:81-84 | Status RECEIVING means the last event was a message that parsed, and the snapshot is that message's document. |
| Connection.UnparsableThenClose | web/src/App.tsx:85-97 | An unparsable message gives ERROR, keeps the previous snapshot and requests a close. The close event that follows gives CLOSED with no snapshot. |
| Connection.SessionScenario | web/src/App.tsx:72-97 | Starting from CLOSED with no snapshot: open gives OPEN; a parsed empty snapshot gives RECEIVING with that snapshot; unparsable text gives ERROR with the snapshot kept and a close requested; close gives CLOSED with none. |
| HexColor.Luminance | web/src/App.tsx:547-560 | For every colour the pattern accepts, the result is again `#` plus six lower-case hex digits, and channel k of the result is channel k of the input, scaled, clamped and rounded. |
| HexColor.LuminanceIdentity | web/src/App.tsx:547-560 | Intensity 0 returns the input colour unchanged: the decode/encode round trip. |
| HexColor.LuminanceBrightens | web/src/App.tsx:552-557 | With intensity of at least 0, no channel of the result is below the input's channel. |
| HexColor.LuminanceDarkens | web/src/App.tsx:552-557 | With intensity of at most 0, no channel of the result is above the input's channel. |
| HexColor.LuminancePair | web/src/App.tsx:552-557 | For intensity t of at least 0, `luminance(c, -t)` is no lighter than c, and `luminance(c, t)` no darker, in every channel. |
| HexColor.LuminanceChannel | web/src/App.tsx:552-559 | Channel k of `luminance(c, t)` is channel k of c after scaling. |
| HexColor.ChannelsDetermineColor | web/src/App.tsx:548-552 | Two accepted colours with equal decoded channels are the same string: decoding loses nothing. |
| HexColor.PairDeterminedByValue | web/src/App.tsx:552-554 | Two lower-case digit pairs that parse to the same byte are the same pair. |
| HexColor.ParseFormat | web/src/App.tsx:552-556 | Encoding a byte gives two lower-case hex digits, and parsing them returns the byte. |
| HexColor.FormatParse | web/src/App.tsx:552-556 | Parsing two lower-case hex digits and encoding the byte returns the same two digits. |
| HexColor.FormatColor | web/src/App.tsx:556-559 | `#` joined with the three two-digit numerals is an accepted colour, and its channels decode back to red, green and blue. |
| HexColor.FormattedColor | web/src/App.tsx:556-559 | `#` joined with three encoded bytes is an accepted colour whose channels read back as those bytes. |
| HexColor.PaddedHexIsFormatByte | web/src/App.tsx:556 | `b.toString(16).padStart(2, '0')` is the high hex digit of b followed by the low one. |
| HexColor.ToHexString | web/src/App.tsx:556 | `n.toString(16)` is lower-case hex digits only. It is one digit long iff n < 16, and two digits for 16..255. |
| HexColor.PadStart | web/src/App.tsx:556 | `padStart` keeps the string as its suffix, reaches the requested width, and fills the front with the fill character. |
| HexColor.ScaleChannel | web/src/App.tsx:553-555 | The scaled channel is a byte. It does not fall below the input for intensity of at least 0, does not rise above it for intensity of at most 0, and equals it at 0. |
| HexColor.ScaleChannelRounds | web/src/App.tsx:553-555 | The scaled channel is the byte nearest `channel * (1 + intensity)`, with halves rounding up. It is 0 when the product is negative and 255 when the product exceeds 255. |
| HexColor.Round | web/src/App.tsx:553 | `Math.round` of a value in 0..255 is the byte n with n - 1/2 <= x < n + 1/2: the nearest byte, with halves rounding up. |
| HexColor.RoundFrom | web/src/App.tsx:553 | The search returns a byte n with n - 1/2 <= x < n + 1/2. |
| HexColor.RoundIsFloorHalf | web/src/App.tsx:553 | On 0..255, the rounding used equals `Math.round`'s `Floor(x + 1/2)`. |
| HexColor.Clamp | web/src/App.tsx:554 | `Math.min(Math.max(x, 0), 255)` lies in 0..255, is x inside that range, and is the bound that x overshoots otherwise. |
| HexColor.TimesIsProduct | web/src/App.tsx:554 | The repeated addition used for scaling equals the real product `v * f`. |
| HexColor.TimesSide | web/src/App.tsx:554 | A factor of at least 1 does not shrink the channel. A factor in 0..1 keeps it in 0..v. A negative factor makes a non-zero channel negative. |
| Shadow.Merge | web/src/App.tsx:514-519 | Each merged shadow field is the caller's value when supplied and the theme's otherwise. `color` falls back to `theme.bg`, and `inset` is passed through. |
| Shadow.MergeNothing | web/src/App.tsx:514-519 | With no overrides, the merge is the theme's own shadow. |
| Shadow.MergeComplete | web/src/App.tsx:517 | When the caller supplies color, distance, blur and intensity, the theme has no effect on the merge. |
| Shadow.MergeFieldwise | web/src/App.tsx:517 | Themes that agree on every field the caller leaves out give the same merge. |
| Shadow.NeuBoxShadow | web/src/App.tsx:521-537 | `false` gives an empty style. Otherwise there are exactly two layers, each coloured with an accepted colour. |
| Shadow.NeuShadowColors | web/src/App.tsx:526-534 | The down-right layer is coloured `luminance(color, -intensity)` and the up-left layer `luminance(color, intensity)`. |
| Shadow.NeuShadowChannels | web/src/App.tsx:526-534 | In channel k, the down-right layer is the base channel scaled by 1 - intensity, and the up-left layer the base channel scaled by 1 + intensity. |
| Shadow.UseNeuBoxShadow | web/src/App.tsx:514-519 | The style is empty exactly when the argument is `false`. Otherwise it is `neuBoxShadow` applied to the caller's fields merged over the theme's. |
| Shadow.ShadowLayerChannels | web/src/App.tsx:514-534 | In channel k, the two layers of `useNeuBoxShadow(props)` are the merged colour's channel scaled by 1 - intensity and by 1 + intensity, for the merged intensity. |
| Shadow.ShadowLayersMirror | web/src/App.tsx:523-535 | The two layers share blur and inset. Inset holds only when the caller passed `inset: true`. Offsets are (d, d) and (-d, -d) for the merged distance d. |
| Shadow.ShadowBracketsBase | web/src/App.tsx:526-534 | For intensity of at least 0, the down-right layer is no lighter than the base colour and the up-left layer no darker, channel by channel. |
| Shadow.FlatShadowKeepsColor | web/src/App.tsx:526-534 | At intensity 0, both layers use exactly the base colour. |
| Shadow.DefaultThemeShadows | web/src/App.tsx:12-20 | The default theme's background is a colour `luminance` accepts, whatever the other overrides. |
| Widgets.SpaceDim | web/src/App.tsx:455-457 | `sm` maps to 0.5vw, `md` or an omitted value to 1vw, and `lg` to 2vw. |
| Widgets.SpaceDimOrdered | web/src/App.tsx:455-457 | The spacings increase strictly from sm to md to lg, and the default equals md. |
| Widgets.Box | web/src/App.tsx:458-471 | Padding, row gap and column gap all equal the chosen spacing. The corner radius is the theme's roundness. The shadow is `useNeuBoxShadow(neuShadow)`, so there is none exactly when `neuShadow` is `false`. |
| Widgets.FontWeight | web/src/App.tsx:494-495 | `light` maps to 400, `medium` to 700, and `bold` or an omitted value to 1000. |
| Widgets.FontWeightOrdered | web/src/App.tsx:494-495 | The weights increase strictly from light to medium to bold, and the default is the heaviest. |
| Widgets.FirstNamed | web/src/App.tsx:277-279 | The index found is the first binding whose name is non-empty. No index means every name is empty. |
| Widgets.KnobFor | web/src/App.tsx:276-282 | The knob label is the name of the first binding with a non-empty name, and the indicator is that binding's value. Label `''` and no indicator iff every name is empty. |
| Widgets.PadText | web/src/App.tsx:264-266 | The pad label is the first binding's name, absent when there are no bindings. |
| Widgets.Bindings | web/src/App.tsx:239-288 | No snapshot gives nothing. Otherwise there is one pad face per pad and one knob face per knob, in the same order and computed element by element. |
| App.FacesFollowLatestMessage | web/src/App.tsx:81-84 | After a message that parses to s, the faces shown are exactly those of s. No pad or knob of an earlier snapshot persists. |
| App.FacesAfterUnparsable | web/src/App.tsx:85-97 | An unparsable message leaves the current faces on screen, and the following close removes them. |
| App.NoFacesAfterErrorOrClose | web/src/App.tsx:90-97 | After an error or close event, no pads or knobs are shown. |

## Left out

- The WebSocket itself (App.tsx:77, 98): the `ws://localhost:8080` endpoint, the teardown `socket.close()` and socket behaviour after a close. A handler's close is only the `closeRequested` flag.
- Connection.Step: does not model the browser dropping messages once `close()` has been called. That is socket behaviour, not handler logic, so the step function accepts every event in every configuration.
- `JSON.parse`: it is foreign code, modelled as the oracle outcome carried by the message event. A JSON document of the wrong shape is outside the model.
- React mechanics: `useState`, `useEffect`, contexts, the `Theme` provider, JSX rendering and `scrollIntoView` (App.tsx:425-429). These are UI glue.
- The theme editor's `parseFloat` (App.tsx:114), `Text` font-size scaling with `Math.pow` (App.tsx:488-493) and knob rotation (App.tsx:370). These are floating-point presentation formulas.
- The CSS text layout of `box-shadow` (App.tsx:526-535). It is modelled as two structured layers, not as a string.
- `Box`'s caller `style` spread over its computed style (App.tsx:467). It is plain property override.
- HexColor.Luminance: exact real arithmetic does not reproduce IEEE-754 rounding of the product `channel * (1 + intensity)` bit for bit.
- HexColor.Luminance: a colour the pattern rejects makes the source dereference a null match (App.tsx:552). Here that is a precondition, not an error result.
- Shadow.NeuBoxShadow: its own contract states two layers in accepted colours, not which colours. `NeuShadowColors` states the colours, because stating them on the function itself runs the solver out of resources.
- Shadow.Merge: a caller key that is present but holds `undefined` would override the theme with `undefined` in JavaScript. The model treats it as absent, and no caller in the file does this.
- `src/main/java/com/garo/instrumentExtension.java`: the whole file is commented out.
