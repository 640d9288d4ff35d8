# AdLapse: ad detection and overlay lifecycle

AdLapse is a browser extension for a streaming video player. While an ad
plays it mutes the video and covers the player with an overlay showing a
news headline, a poem or a vocabulary word. This project models two parts
of it in Dafny and proves properties of the model:

- the content script (`content.js`). It has a 500 ms poll tick that runs the
  ad detector and drives the overlay. It also has the overlay controller
  (show, hide, create, refresh, update), the 20 s content rotation timer,
  the close button, the preference listener, the start-up preference read
  and the mute bookkeeping on the page's videos;
- the background worker's answer to a `getContent` request
  (`background.js`). This is the dispatch on the content type, the shaping
  of the fetched news and poem data, the fixed fallback payloads and the
  pick from the curated vocabulary list.

Files:

- `wrappers.dfy`: `Option`.
- `payload.dfy`: the payload variant (`loading`, `news`, `poem`,
  `language`), its type tag, and `getHeaderText`.
- `background.dfy`: `getContent` and the shaping of fetched data. The
  network outcome is an input (`NewsFetch`, `PoemFetch`). A draw of
  `Math.random()` is an input `r` with `0 <= r < 1`.
- `detector.dfy`: `detectAd` over an abstract page. The page is a list of
  timer elements (rendered width, text) and three optional indicator
  elements (rendered width). `AdVisible` states the verdict. The method
  `DetectAd` performs the scan with early return and is proved equal to it.
- `lifecycle.dfy`: the content script as a pure state machine. `State`
  holds the module variables. There is one function per handler, and an
  `Event` type for the asynchronous events: poll tick, show reply, refresh
  reply, rotation tick, close click, preference change, storage reply and
  storage timeout. `Step` and `Run` give any interleaving. The file also
  holds the invariant and the lemmas about runs.
- `contentscript.dfy`: class `AdLapse`. Its fields are the module
  variables and its methods are the handlers, updating the fields in place;
  `muteVideos` and `unmuteVideos` are loops over the videos. Every event
  method is proved to reach `Lifecycle.Step` of the old state and to keep
  `Lifecycle.Inv`.

The model follows the source as written, including what it does not
guarantee. The lemmas in the last group of `lifecycle.dfy` show each of
these on a concrete run:

- An overlay can stay visible after the ad ends. The show reply
  (content.js:292-308) creates the overlay without checking that the ad is
  still playing, and later no-ad ticks do not remove it (`OverlayOutlivesAd`).
- Two overlay elements can be in the page at once. Two show requests can
  be out together, and each reply appends an overlay element, so the first
  one is orphaned (`TwoShowsPending`, `TwoOverlays`).
- Refresh requests can pile up. Each rotation tick sends a request even
  while an earlier one is unanswered (`RotationDoesNotWait`).
- A refresh reply is applied to whichever overlay exists when it arrives.
  If the overlay was hidden and a new one shown in the meantime, the old
  reply updates the new overlay, because `OnRefreshReply` checks only that
  some overlay exists (`StaleRefreshUpdatesNewOverlay`).
- The storage timeout (content.js:44-49) starts detection whenever polling
  is off, even when the stored preferences disabled the extension
  (`DisabledStillStarts`).

## Model

| member | source | states |
|---|---|---|
| `Payload.HeaderText` | content.js:377-385 | the header is the default "AdLapse" exactly when the tag is not one of news, poem, language, loading |
| `Payload.HeaderTextInjective` | content.js:378-383 | the four known tags get four different headers |
| `Payload.PayloadHeader` | content.js:364 | every payload is shown under its own header, never the default |
| `Background.GetContent` | background.js:22-33 | a news, poem or language request is answered with a payload of that type; any other tag with `loading` |
| `Background.NewsContent` | background.js:36-66 | a news payload; the fixed fallback when the listing is missing, empty or the fetch failed; otherwise the title and shaped description of one of the listed posts, with the Reddit source |
| `Background.Description` | background.js:51 | an empty selftext gives "Click to read more..."; otherwise a non-empty prefix of the selftext, the whole text when it has at most 200 characters and exactly 200 characters when longer |
| `Background.RandomIndex` | background.js:46 | `floor(r * n)` is a valid index for every draw in [0, 1) |
| `Background.RandomIndexReaches` | background.js:146 | every index is chosen by some draw |
| `Background.JoinAppend` | background.js:77 | joining a concatenation puts one separator between the two joins |
| `Background.PoemLines` | background.js:77-83 | a poem of at most 8 lines is shown whole; a longer one is exactly the first 8 lines joined by "\n", followed by "\n..." |
| `Background.PoemContent` | background.js:69-97 | a poem payload; the fixed fallback when the answer is missing or empty; otherwise the first poem's title, author and shaped lines |
| `Background.LanguageContent` | background.js:100-152 | a language payload that is one of the 8 curated entries |
| `Background.EveryWordReachable` | background.js:103-151 | each curated entry is the answer for some draw |
| `Detector.AdVisible` | content.js:121-179 | the detector's verdict as a predicate (some rendered timer element with trimmed text containing "ad", or a rendered indicator); a page where no queried element exists is never an ad; `DetectAd` is proved equal to it |
| `Detector.DetectAd` | content.js:121-179 | the scan returns true exactly when some rendered timer element's trimmed text is non-empty and contains "ad" case-insensitively, or a rendered seek-unavailable, go-ad-free or resume-message element exists |
| `Detector.TimerShowsAdRaw` | content.js:132-135 | trimming neither creates nor hides an "ad" match, so a timer element signals an ad exactly when it is rendered and its raw text contains "ad" |
| `Detector.ContainsAdTrimStart` | content.js:132-135 | removing leading whitespace keeps the "ad" match |
| `Detector.ContainsAdTrimEnd` | content.js:132-135 | removing trailing whitespace keeps the "ad" match |
| `Detector.NoSignalNoAd` | content.js:129-178 | a page with no rendered signal element is never an ad |
| `Lifecycle.Initial` | content.js:4-10 | the start state: no overlay, no ad, not polling, not dismissed, no rotation, preferences news/enabled |
| `Lifecycle.MuteAll` | content.js:182-191 | after muting every video is muted, a video is marked exactly when it was marked before or was unmuted, and an already muted video is left as it was |
| `Lifecycle.UnmuteAll` | content.js:194-203 | after unmuting no video is marked; a video is muted exactly when it was muted and not marked |
| `Lifecycle.MuteThenUnmuteRestores` | content.js:182-203 | mute followed by unmute restores every video, so a video the user muted stays muted |
| `Lifecycle.MuteUnmuteKeepMarksMuted` | content.js:185-199 | both operations keep every marked video muted |
| `Lifecycle.StartDetection` | content.js:76-84 | detection is polling afterwards, and nothing changes when it already was |
| `Lifecycle.StopDetection` | content.js:113-118 | detection is not polling afterwards |
| `Lifecycle.StopRotation` | content.js:264-270 | rotation is stopped afterwards |
| `Lifecycle.StartRotation` | content.js:249-258 | rotation is running afterwards |
| `Lifecycle.HideOverlay` | content.js:388-402 | with an overlay: the handle is cleared, rotation stops, the videos become `UnmuteAll` of the old videos (exactly the marked ones unmuted, none left marked) and nothing else changes; without one: nothing changes |
| `Lifecycle.Request` | content.js:212-213 | a content request for the cached content type is appended to the request log, and nothing else changes |
| `Lifecycle.ShowOverlay` | content.js:273-291 | nothing happens when an overlay exists or the user closed it; otherwise exactly one request for the current type is sent, one more show reply is awaited, the videos are muted, and nothing else changes |
| `Lifecycle.CreateOverlay` | content.js:313-328 | the new overlay shows the payload; a previous overlay element stays in the page as an orphan |
| `Lifecycle.OnShowReply` | content.js:292-308 | the reply always creates an overlay, with the delivered payload or `loading`; only a delivered payload starts rotation; the previous overlay element, if any, is orphaned; nothing else changes (ad flag, videos, dismissal, polling, preferences, requests) |
| `Lifecycle.Refresh` | content.js:206-213 | with an overlay, one request is sent and one more refresh reply is awaited; without one, nothing happens |
| `Lifecycle.OnRefreshReply` | content.js:214-227 | a reply that finds no overlay, an error or no content changes nothing but the pending count; a delivered payload that finds an overlay replaces the shown one, and nothing else changes |
| `Lifecycle.UpdateOverlay` | content.js:231-246 | with an overlay, it shows the new payload; without one, nothing changes |
| `Lifecycle.OnRotationTick` | content.js:254-258 | a rotation tick sends a request only while an overlay is shown and not closed by the user |
| `Lifecycle.OnPrefsChanged` | content.js:57-70 | a changed content type is cached; a changed `enabled` is cached and then runs `SetEnabled`: enabling starts polling; disabling stops polling, removes the overlay, stops rotation and unmutes the marked videos if there was one, and keeps the ad flag; without an `enabled` change only the content type changes |
| `Lifecycle.SetEnabled` | content.js:61-69 | the flag is cached, then detection starts, or stops and the overlay is hidden |
| `Lifecycle.OnStorageLoaded` | content.js:23-41 | an error starts detection and keeps the cached preferences; otherwise the stored content type is cached ("news" when missing or empty), `enabled` is cached as "not stored false", and detection starts exactly when enabled; nothing but the preferences, polling and the awaited-reply flag changes |
| `Lifecycle.OnStorageTimeout` | content.js:44-49 | after the timeout detection is polling, the timeout is disarmed, and nothing else changes |
| `Lifecycle.InitialInv` | content.js:4-10 | the start state satisfies the invariant |
| `Lifecycle.StepInv` | content.js:23-402 | every handler keeps the invariant: rotation only with an overlay, every marked video muted |
| `Lifecycle.RunInv` | content.js:23-402 | every run of events keeps the invariant |
| `Lifecycle.NoRotationWithoutOverlay` | content.js:395 | once the overlay is gone the rotation timer cannot fire |
| `Lifecycle.OnTick` | content.js:84-109 | the ad flag becomes the verdict; a changed verdict clears the dismissal and runs `showOverlay` (ad began) or `hideOverlay` (ad ended); an unchanged verdict changes nothing |
| `Lifecycle.OnUserClose` | content.js:320-324 | the dismissal is set and the overlay hidden, with the ad flag untouched |
| `Lifecycle.TickStartsAd` | content.js:93-97 | a tick that detects an ad while none was playing sets the ad flag, clears the dismissal and runs `showOverlay` |
| `Lifecycle.TickEndsAd` | content.js:98-102 | a tick that finds no ad while one was playing clears the ad flag and the dismissal and runs `hideOverlay`: with an overlay, rotation stops and the marked videos are unmuted |
| `Lifecycle.TickSteady` | content.js:93-108 | a tick whose verdict equals the ad flag changes nothing, so a dismissed overlay stays hidden during the ad |
| `Lifecycle.CloseKeepsAd` | content.js:320-324 | the close button sets the dismissal flag and removes the overlay and rotation, leaving the ad flag alone |
| `Lifecycle.DismissClearedByNextAd` | content.js:93-103 | dismiss, ad ends, new ad: the dismissal is cleared and a new show request is sent |
| `Lifecycle.OneAdScenario` | content.js:84-109 | ticks no-ad, ad, ad, ad, no-ad with the reply after the second send exactly one request and end with no overlay, no rotation and every video restored |
| `Lifecycle.OverlayOutlivesAd` | content.js:292-308 | when the ad ends before the show reply, the reply still creates an overlay and starts rotation with no ad playing and the videos muted, and later no-ad ticks keep it |
| `Lifecycle.TwoShowsPending` | content.js:273-291 | an ad that ends before the reply, then a new ad, puts two show requests out at once |
| `Lifecycle.TwoOverlays` | content.js:313-326 | two outstanding show replies leave one overlay element orphaned in the page |
| `Lifecycle.RotationDoesNotWait` | content.js:254-258 | a rotation tick sends a new request even while a refresh is unanswered |
| `Lifecycle.StaleRefreshUpdatesNewOverlay` | content.js:214-227 | a refresh sent for one overlay, answered after that overlay was hidden and a new one shown, sets the new overlay's payload |
| `Lifecycle.DisabledStillStarts` | content.js:31-49 | stored `enabled: false` followed by the storage timeout leaves detection polling with the extension disabled |
| `ContentScript.AdLapse.constructor` | content.js:4-10 | the object starts in `Lifecycle.Initial` and satisfies the invariant |
| `ContentScript.AdLapse.PollTick` | content.js:84-109 | runs the detector and updates the fields to `Step` of the tick, keeping the invariant |
| `ContentScript.AdLapse.ShowResponse` | content.js:292-308 | updates the fields to `Step` of the show reply, keeping the invariant |
| `ContentScript.AdLapse.RefreshResponse` | content.js:214-227 | updates the fields to `Step` of the refresh reply, keeping the invariant |
| `ContentScript.AdLapse.RotationTick` | content.js:254-258 | updates the fields to `Step` of the rotation tick, keeping the invariant |
| `ContentScript.AdLapse.UserClose` | content.js:320-324 | updates the fields to `Step` of the close click, keeping the invariant |
| `ContentScript.AdLapse.PreferencesChanged` | content.js:57-70 | updates the fields to `Step` of the preference change, keeping the invariant |
| `ContentScript.AdLapse.SetEnabled` | content.js:61-69 | updates the fields to `Lifecycle.SetEnabled` |
| `ContentScript.AdLapse.StorageResponse` | content.js:23-41 | updates the fields to `Step` of the storage reply, keeping the invariant |
| `ContentScript.AdLapse.StorageTimeout` | content.js:44-49 | updates the fields to `Step` of the timeout, keeping the invariant |
| `ContentScript.AdLapse.MuteVideos` | content.js:182-191 | the loop leaves the videos equal to `MuteAll` of the old videos |
| `ContentScript.AdLapse.UnmuteVideos` | content.js:194-203 | the loop leaves the videos equal to `UnmuteAll` of the old videos |
| `ContentScript.AdLapse.ShowOverlay` | content.js:273-291 | updates the fields to `Lifecycle.ShowOverlay` |
| `ContentScript.AdLapse.HideOverlay` | content.js:388-402 | updates the fields to `Lifecycle.HideOverlay` |
| `ContentScript.AdLapse.CreateOverlay` | content.js:313-328 | updates the fields to `Lifecycle.CreateOverlay` |
| `ContentScript.AdLapse.UpdateOverlayContent` | content.js:231-246 | updates the fields to `Lifecycle.UpdateOverlay` |
| `ContentScript.AdLapse.RefreshOverlayContent` | content.js:206-228 | updates the fields to `Lifecycle.Refresh` |
| `ContentScript.AdLapse.SendContentRequest` | content.js:290-291 | appends the cached content type to the request log |
| `ContentScript.AdLapse.StartAdDetection` | content.js:76-84 | updates the fields to `Lifecycle.StartDetection` |
| `ContentScript.AdLapse.StopAdDetection` | content.js:113-118 | updates the fields to `Lifecycle.StopDetection` |
| `ContentScript.AdLapse.StartContentRotation` | content.js:249-258 | updates the fields to `Lifecycle.StartRotation` |
| `ContentScript.AdLapse.StopContentRotation` | content.js:264-270 | updates the fields to `Lifecycle.StopRotation` |

## Left out

- Messaging and storage APIs (`chrome.runtime.sendMessage`, `chrome.storage` get, set and onChanged, `chrome.runtime.lastError`) are foreign calls. Their callbacks are events with the reply as an argument. A reply can only arrive for a request that was sent.
- Real time is not modelled: the 500 ms and 20 s intervals and the 2000 ms storage timeout are events. The 300 ms fade in `updateOverlayContent` is also left out, and the new payload is applied at once. The deferred write into an overlay that was removed during the fade has no visible effect.
- DOM construction and markup (`createOverlay`'s element building, `generateOverlayHTML`, `generateMainContent`, CSS) is presentation. The model records only that an overlay element exists and which payload it shows.
- `fetch`, JSON parsing and `Math.random` in the background worker are inputs. So is the listener wrapper at background.js:12-19, which always answers with `{content}`. The unused `contentCache` holds no state.
- The synchronous exception path of `init` (content.js:50-54) is not modelled. This is the case where storage access throws before the get and the timeout are issued.
- Logging, `debugMode`, `checkCount` and `detectionMethod` only feed the console.
- popup.js is not part of this model: it is the settings page, which only reads and writes the preference store.
- `Lifecycle.OnPrefsChanged`: a change event that removes a key is not modelled, nor are non-string and non-boolean stored values (the settings page writes only strings and booleans).
- `Lifecycle.OnStorageLoaded`: only string content types and boolean `enabled` values are modelled. The source treats any value other than `false` as enabled.
- `Payload.HeaderText`: names inherited from `Object.prototype` (such as "constructor") are looked up on the header table in the source. The model treats them like any other unknown tag. Payload tags never take such values.
- `Background.Description`: counts Unicode scalar values, not the UTF-16 code units of `substring`. A surrogate pair around position 200 is not split in the model.
- `Background.NewsContent` and `Background.PoemContent`: a post without `selftext` or a poem without `lines` makes the source throw and fall back. The model's records always carry these fields.
- `Detector.DetectAd`: case folding is modelled for ASCII letters only. This is exact for the search for "ad", because only "A" lower-cases to "a" and only "D" to "d".
- The page's set of video elements is fixed in the model. Videos added or removed between mute and unmute are not modelled.
- The user changing a video's mute flag by hand is not an event of the model, in either direction. Muting a video by hand while it is unmarked is harmless. Unmuting a video the extension marked would break `MarksMuted`, part of `Lifecycle.Inv`: that invariant holds only because the model has no such event.
