# Quran reader: chapter data shaping and the audio-player controller

This Dafny project models the two parts of the Quran-reading web application
that hold logic of their own.

- **Data access** (`src/lib/quran.ts`), module `Quran` in `quran.dfy`. Three parts are modelled:
  - the success gates on the HTTP responses;
  - the positional join of a chapter's verse texts with its translations into one detail record;
  - the slug of a chapter name, the first-match lookup of a chapter by slug, and the audio URL template.

  Each HTTP response is an input: a status code and an already decoded body.
  `Response.Ok()` is the Fetch standard's `ok`, meaning the status is in 200-299.
  The three requests `getChapterBySlug` makes through `getChapter` are a
  parameter `fetch: string -> DetailResponses`, which maps a chapter id string
  to the three responses for it.
- **Audio player** (`src/components/audio-player.tsx`), module `Player` in `player.dfy`. It is
  a class `AudioPlayer` holding the component's state: `isPlaying`, `currentTime`,
  `duration` and `volume`. It also holds the (possibly absent) media element,
  a class `MediaElement` with the position, duration, volume and paused flag
  the controller touches. The handlers are methods with `modifies` clauses.
  `Valid()` says the element's volume agrees with the controller's, which every
  handler keeps. `InSync()` says the element plays exactly when `isPlaying` is
  set. The handlers keep it, but the element breaks it when it ends on its own
  (`MediaElement.End`), because nothing listens for that. Each handler's new
  state is also stated as a pure transition on `PlayerState`, and the lemmas about several calls are stated on those transitions.
  `formatTime` is a function.
- **Decimal text** (`text.dfy`, module `Text`): `toString` of whole numbers
  below 10^21 in magnitude, and `padStart`, with the round trip from digits back to the number.

Time is whole seconds (`nat`). Volume is whole tenths, `0..10`, because the
volume slider runs from 0 to 1 in steps of 0.1.

## Model

| member | source | states |
|---|---|---|
| Quran.Response.Ok | src/lib/quran.ts:49 | `response.ok`: the status is in 200-299, equivalently status / 100 == 2 |
| Quran.GetChapters | src/lib/quran.ts:44-55 | fails with the HTTP error exactly when the status is not 2xx; on success returns the decoded chapter list unchanged |
| Quran.TranslationAt | src/lib/quran.ts:92 | the optional-chained text with its "" default is the text at the index when there is an entry there, and "" otherwise |
| Quran.JoinVerses | src/lib/quran.ts:89-93 | one verse per verse-text entry; verse i has the i-th verse number and Uthmani text, and the i-th translation text when there is one, otherwise "" |
| Quran.MakeDetail | src/lib/quran.ts:87-88 | the detail record carries every chapter field unchanged, plus the given verse list |
| Quran.AllOk | src/lib/quran.ts:75 | the gate is not passed exactly when the chapter, verses or translation response is not ok |
| Quran.GetChapter | src/lib/quran.ts:68-95 | fails exactly when at least one of the three responses is not ok, with all three statuses; otherwise the chapter's fields unchanged and the joined verses |
| Quran.GetChapterVerses | src/lib/quran.ts:87-93 | with all responses ok, the detail has as many verses as the verse-text list, and verse i is built from the i-th verse text and the i-th translation or "" |
| Quran.JoinDropsExtraTranslations | src/lib/quran.ts:89-93 | translations past the last verse have no effect on the join |
| Quran.JoinPadsMissingTranslations | src/lib/quran.ts:92 | a missing translation entry gives the same verse as an entry with empty text |
| Quran.IsWhitespace | src/lib/quran.ts:102 | the class `\s`: no whitespace character is the hyphen, a digit or an ASCII letter |
| Quran.LowerChar | src/lib/quran.ts:102 | an upper-case ASCII letter becomes its lower-case partner (code + 32); every other character is unchanged; the result is never upper case and is whitespace exactly when the input is |
| Quran.ToLower | src/lib/quran.ts:102 | same length, no upper-case ASCII letter, each character lowered on its own |
| Quran.DropWhitespace | src/lib/quran.ts:102 | removes exactly the maximal leading run of whitespace: what is removed is all whitespace, and what is left is a suffix that is empty or starts with a non-whitespace character |
| Quran.CollapseWhitespace | src/lib/quran.ts:102 | the result has no whitespace, is no longer than the input, and every character of it is "-" or a character of the input |
| Quran.Slugify | src/lib/quran.ts:101-103 | a slug has no whitespace, no upper-case ASCII letter and is no longer than the name |
| Quran.CollapseWithoutWhitespace | src/lib/quran.ts:102 | a string without whitespace is left unchanged by the replacement |
| Quran.CollapseKeeps | src/lib/quran.ts:102 | a leading character that is not whitespace is copied, and the replacement goes on with the rest |
| Quran.CollapseRunStart | src/lib/quran.ts:102 | a leading maximal whitespace run becomes one "-", and the replacement goes on after the run |
| Quran.CollapseRun | src/lib/quran.ts:102 | a whitespace-free prefix is kept, the maximal whitespace run after it becomes one "-", and the replacement goes on after the run; so every run, however many, becomes one "-" ("a b  c" gives "a-b-c") |
| Quran.DropWhitespaceRun | src/lib/quran.ts:102 | dropping the leading run of a whitespace run followed by a non-whitespace start leaves exactly that rest |
| Quran.SlugifyIdempotent | src/lib/quran.ts:101-103 | the slug of a slug is the slug |
| Quran.SlugifyFixedPoint | src/lib/quran.ts:101-103 | slugify leaves a string unchanged if and only if it has no whitespace and no upper-case ASCII letter |
| Quran.SlugMatches | src/lib/quran.ts:59 | the `find` test; a string it accepts is its own slug |
| Quran.FindBySlug | src/lib/quran.ts:59 | returns the index of the first chapter whose slugified simple name equals the slug, and none exactly when no chapter matches |
| Quran.FindChapterBySlug | src/lib/quran.ts:59-63 | returns the first matching chapter; fails with not-found for the slug exactly when no chapter matches |
| Quran.GetChapterBySlug | src/lib/quran.ts:57-66 | a failed list request gives that HTTP error; no match gives not-found; otherwise exactly the chapter detail fetched for the first match's id as a decimal string |
| Quran.FirstMatchWins | src/lib/quran.ts:59 | when two chapters match, the one found is no later than the earlier of them |
| Quran.OwnSlugIsFound | src/lib/quran.ts:59-63 | the slug of any listed chapter's name always finds a chapter |
| Quran.GetAudioUrl | src/lib/quran.ts:97-99 | the URL is the fixed CDN prefix, then the id, then ".mp3" |
| Quran.AudioUrlId | src/lib/quran.ts:98 | an id is recovered exactly from strings with the URL's prefix and suffix |
| Quran.AudioUrlRoundTrip | src/lib/quran.ts:97-99 | stripping prefix and suffix from the URL of an id gives back the id |
| Quran.AudioUrlIdSound | src/lib/quran.ts:97-99 | any string an id is recovered from is the URL of that id |
| Quran.AudioUrlInjective | src/lib/quran.ts:97-99 | different ids give different URLs |
| Quran.ChapterAudioUrlInjective | src/lib/quran.ts:97-99 | different numeric chapter ids, written in decimal, give different URLs |
| Text.NatToString | src/components/audio-player.tsx:78 | `toString` of a whole number: non-empty decimal digits, no leading zero, one digit exactly below ten |
| Text.IntToString | src/lib/quran.ts:65 | `id.toString()`: for a non-negative id, the shortest decimal digits (no leading zero) whose value is the id; for a negative id, "-" followed by the shortest decimal digits whose value is minus the id |
| Text.NatToStringRoundTrip | src/components/audio-player.tsx:78 | the digits of a number read back as the number |
| Text.NatToStringInjective | src/components/audio-player.tsx:78 | different numbers print differently |
| Text.IntToStringInjective | src/lib/quran.ts:65 | different chapter ids give different id strings |
| Text.PadStart | src/components/audio-player.tsx:78 | `padStart`: the result has the requested width (or the string's own length if longer), ends with the string and is filled before it |
| Player.MediaElement.constructor | src/components/audio-player.tsx:83 | a freshly loaded `<audio>` element: the given duration, position 0, full volume, paused |
| Player.MediaElement.Play | src/components/audio-player.tsx:44 | the element is no longer paused; position, duration and volume unchanged |
| Player.MediaElement.Pause | src/components/audio-player.tsx:42 | the element is paused; position, duration and volume unchanged |
| Player.MediaElement.End | src/components/audio-player.tsx:30-31 | the element ends on its own: paused at its last position, duration and volume unchanged; of its events the controller hears only `loadeddata` and `timeupdate` |
| Player.AudioPlayer.constructor | src/components/audio-player.tsx:13-17 | initial state: not playing, position 0, duration 0, full volume; the element (a freshly loaded one) is in step with it |
| Player.AudioPlayer.TogglePlay | src/components/audio-player.tsx:39-48 | with the element present, flips isPlaying and pauses the element exactly when it was playing before, so the two end in step from any state; nothing else changes; without it, changes nothing |
| Player.AudioPlayer.Restart | src/components/audio-player.tsx:50-59 | with the element present, sets the position to 0 on both and sets isPlaying; the element is left paused exactly when isPlaying was already set and the element was paused (it ended on its own), and otherwise plays; volume and duration unchanged; without it, changes nothing |
| Player.AudioPlayer.OnSliderChange | src/components/audio-player.tsx:61-66 | with the element present, sets the position of both to value[0] and changes nothing else; without it, changes nothing |
| Player.AudioPlayer.OnVolumeChange | src/components/audio-player.tsx:68-73 | with the element present, sets the volume of both to value[0] and changes nothing else; without it, changes nothing |
| Player.AudioPlayer.OnLoadedData | src/components/audio-player.tsx:23-26 | copies the element's duration and position into the state, nothing else |
| Player.AudioPlayer.OnTimeUpdate | src/components/audio-player.tsx:28 | copies the element's position into the state, nothing else |
| Player.ReplayAfterEnd | src/components/audio-player.tsx:39-59 | for a freshly mounted player with an element: play, let it end, restart, and the element is still paused though isPlaying is set; two toggles later it plays from position 0 |
| Player.ToggleTwiceRestores | src/components/audio-player.tsx:39-48 | toggling twice restores the original state |
| Player.RestartIdempotent | src/components/audio-player.tsx:50-59 | restarting twice is the same as restarting once |
| Player.RestartIgnoresPlayState | src/components/audio-player.tsx:50-59 | restart ends in the same state whether the player was playing or paused |
| Player.SeekLastWins | src/components/audio-player.tsx:61-66 | only the last position set by the slider remains |
| Player.VolumeLastWins | src/components/audio-player.tsx:68-73 | only the last volume set by the slider remains |
| Player.TwoDigits | src/components/audio-player.tsx:77-78 | a seconds value below 100, padded, is exactly two digits that read back as the value |
| Player.ColonSplit | src/components/audio-player.tsx:78 | the colon of `m:ss` sits third from the end, with the minutes before it and the two seconds digits after it |
| Player.FormatTime | src/components/audio-player.tsx:75-79 | the text is the minutes in decimal without leading zeros, ":", then exactly two digits of seconds below 60, and minutes * 60 + seconds is the time |
| Player.FormatTimeInjective | src/components/audio-player.tsx:75-79 | different times print differently |
| Player.FormatTimeUnderAnHour | src/components/audio-player.tsx:75-79 | a time below an hour prints in four or five characters |

## Left out

- The `fetch` requests, their URLs, JSON decoding and the ordering of `Promise.all` (`src/lib/quran.ts`). These are network I/O and asynchrony; each decoded response is an input, and the request for an id is the parameter `fetch`.
- Malformed response bodies, such as a missing field or a `null` translation text. The model types every body as the shape it is declared with.
- `toLowerCase` beyond ASCII. Only `A`-`Z` are lowered, and the full Unicode case mapping (including mappings that change a string's length) is not modelled. The whitespace class `\s` is written out as the ECMAScript whitespace and line-terminator characters.
- Quran.JoinVerses: the ensures states the translation as `translations[i].text` or `""`. This drops the source's `|| ""` test on empty text, which gives the same string.
- Browser media behaviour: playback advancing the position, and `play()` returning a promise that may reject. `MediaElement.Play` and `Pause` only set the paused flag. The element ending on its own is `MediaElement.End`. A rejected `play()` would leave the same out-of-step state (`isPlaying` set, element paused), which the handlers' contracts already cover. Registering and removing the two event listeners is left out; their handlers are `OnLoadedData` and `OnTimeUpdate`.
- Player.AudioPlayer.OnSliderChange: does not check the value against the slider's bounds. The slider widget supplies it, and the model requires at least one value, as `value[0]` needs.
- Player.AudioPlayer.OnVolumeChange: the volume type only admits 0..10 tenths. The browser's exception for an out-of-range volume is therefore not modelled.
- Floating-point time: a fractional position and `Math.floor` on it. Time is whole seconds, on which the floors are the identity. The controller's duration is 0 until `loadeddata` copies the element's duration, so the model does not need the element's `NaN` duration before it has loaded.
- JavaScript's exponent form for numbers of magnitude 10^21 and above ("1e+21"). `NatToString` and `IntToString` always print plain digits; chapter ids and playback times are far below that bound.
- React's batching of state updates and re-rendering. Each handler's state change takes effect when it returns.
- All JSX rendering, the pages, the layout, the not-found page and the analytics script. These are presentation or third-party code.
