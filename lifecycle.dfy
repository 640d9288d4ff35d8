/**
 * The content script's detection loop and overlay controller, as a pure
 * state machine: `State` holds the script's module-level variables, and one
 * function per handler gives the state after that handler runs.
 *
 * Timers and asynchronous replies are events: a poll tick, the reply to the
 * show request, the reply to a refresh request, a rotation tick, a click on
 * the close button, a preference change, the reply of the preference store
 * and the store's two-second timeout. Any interleaving of enabled events is
 * a run of the script. The class in module ContentScript performs the same
 * handlers in place and is proved to follow these functions.
 */
module Lifecycle {
  import opened Wrappers
  import opened Payload
  import Detector

  /** A video element: its `muted` flag and its `mutedByExtension` mark. */
  datatype Video = Video(muted: bool, marked: bool)

  /** The cached user preferences (`userPreferences`). */
  datatype Prefs = Prefs(contentType: string, enabled: bool)

  /** The stored preferences as `storage.get` returns them; missing keys are None. */
  datatype Stored = Stored(contentType: Option<string>, enabled: Option<bool>)

  /** How a `getContent` request is answered. */
  datatype Reply =
    | LastError               // `chrome.runtime.lastError` is set
    | NoContent               // no response, or a response without `content`
    | Delivered(content: Content)

  datatype State = State(
    overlay: Option<Content>, // `overlayElement`, with the payload it shows
    orphans: nat,             // overlay elements still in the page that `overlayElement` no longer refers to
    adPlaying: bool,          // `isAdPlaying`
    polling: bool,            // `checkInterval` is set
    closedByUser: bool,       // `manuallyClosedByUser`
    rotating: bool,           // `contentRotationInterval` is set
    prefs: Prefs,             // `userPreferences`
    videos: seq<Video>,       // the page's video elements
    requests: seq<string>,    // content types of every `getContent` request sent, oldest first
    pendingShow: nat,         // show requests whose reply has not arrived
    pendingRefresh: nat,      // refresh requests whose reply has not arrived
    awaitingStorage: bool,    // the initial `storage.get` has not answered
    timeoutArmed: bool)       // the two-second storage timeout has not fired

  const DefaultPrefs: Prefs := Prefs("news", true)

  /** The state right after `init` ran: the preferences read and the timeout are outstanding. */
  function Initial(videos: seq<Video>): (s: State)
    ensures s.overlay.None? && !s.adPlaying && !s.polling && !s.closedByUser && !s.rotating
    ensures s.prefs == DefaultPrefs && s.videos == videos && s.requests == []
  {
    State(None, 0, false, false, false, false, DefaultPrefs, videos, [], 0, 0, true, true)
  }

  // ---------------------------------------------------------------- videos

  function MuteOne(v: Video): Video
  {
    if v.muted then v else Video(true, true)
  }

  function UnmuteOne(v: Video): Video
  {
    if v.marked then Video(false, false) else v
  }

  /**
   * `muteVideos`: afterwards every video is muted; a video is marked exactly
   * when it was marked before or the extension muted it now; a video that
   * was muted already is left as it was.
   */
  function MuteAll(vs: seq<Video>): (r: seq<Video>)
    ensures |r| == |vs|
    ensures forall k :: 0 <= k < |vs| ==> r[k].muted
    ensures forall k :: 0 <= k < |vs| ==> (r[k].marked <==> vs[k].marked || !vs[k].muted)
    ensures forall k :: 0 <= k < |vs| ==> vs[k].muted ==> r[k] == vs[k]
  {
    if vs == [] then []
    else
      var rest := MuteAll(vs[1..]);
      assert forall k :: 1 <= k < |vs| ==> ([MuteOne(vs[0])] + rest)[k] == rest[k - 1];
      [MuteOne(vs[0])] + rest
  }

  /**
   * `unmuteVideos`: afterwards no video is marked; the marked videos are
   * unmuted and every other video keeps its muted flag.
   */
  function UnmuteAll(vs: seq<Video>): (r: seq<Video>)
    ensures |r| == |vs|
    ensures Unmarked(r)
    ensures forall k :: 0 <= k < |vs| ==> r[k].muted == (vs[k].muted && !vs[k].marked)
  {
    if vs == [] then []
    else
      var rest := UnmuteAll(vs[1..]);
      assert forall k :: 1 <= k < |vs| ==> ([UnmuteOne(vs[0])] + rest)[k] == rest[k - 1];
      [UnmuteOne(vs[0])] + rest
  }

  lemma {:induction false} MuteAllAt(vs: seq<Video>)
    ensures |MuteAll(vs)| == |vs|
    ensures forall k :: 0 <= k < |vs| ==> MuteAll(vs)[k] == MuteOne(vs[k])
  {
    if vs != [] {
      MuteAllAt(vs[1..]);
    }
  }

  lemma {:induction false} UnmuteAllAt(vs: seq<Video>)
    ensures |UnmuteAll(vs)| == |vs|
    ensures forall k :: 0 <= k < |vs| ==> UnmuteAll(vs)[k] == UnmuteOne(vs[k])
  {
    if vs != [] {
      UnmuteAllAt(vs[1..]);
    }
  }

  /** Every video the extension marked is muted. */
  predicate MarksMuted(vs: seq<Video>)
  {
    forall k :: 0 <= k < |vs| ==> vs[k].marked ==> vs[k].muted
  }

  /** No video carries the extension's mark. */
  predicate Unmarked(vs: seq<Video>)
  {
    forall k :: 0 <= k < |vs| ==> !vs[k].marked
  }

  /**
   * Muting then unmuting restores every video: a video the user had muted
   * stays muted, and one that played with sound plays with sound again.
   */
  lemma MuteThenUnmuteRestores(vs: seq<Video>)
    requires Unmarked(vs)
    ensures UnmuteAll(MuteAll(vs)) == vs
  {
    MuteAllAt(vs);
    UnmuteAllAt(MuteAll(vs));
  }

  /** Both operations keep the marked videos muted. */
  lemma MuteUnmuteKeepMarksMuted(vs: seq<Video>)
    ensures MarksMuted(MuteAll(vs))
    ensures MarksMuted(vs) ==> MarksMuted(UnmuteAll(vs))
  {
    MuteAllAt(vs);
    UnmuteAllAt(vs);
  }

  // ---------------------------------------------------------------- handlers

  /** `startAdDetection`: starts polling unless it is already running. */
  function StartDetection(s: State): (t: State)
    ensures t.polling
    ensures s.polling ==> t == s
    ensures !s.polling ==> t == s.(polling := true)
  {
    if s.polling then s else s.(polling := true)
  }

  /** `stopAdDetection` */
  function StopDetection(s: State): (t: State)
    ensures !t.polling && t == s.(polling := false)
  {
    s.(polling := false)
  }

  /** `stopContentRotation` */
  function StopRotation(s: State): (t: State)
    ensures !t.rotating && t == s.(rotating := false)
  {
    s.(rotating := false)
  }

  /**
   * `hideOverlay`: with an overlay, drops the handle, stops rotation and
   * unmutes the videos the extension muted; without one, changes nothing.
   */
  function HideOverlay(s: State): (t: State)
    ensures s.overlay.None? ==> t == s
    ensures s.overlay.Some? ==>
      t == s.(overlay := None, rotating := false, videos := UnmuteAll(s.videos))
    ensures s.overlay.Some? ==> Unmarked(t.videos)
  {
    if s.overlay.Some? then
      StopRotation(s.(overlay := None)).(videos := UnmuteAll(s.videos))
    else
      s
  }

  /** `sendMessage({action: 'getContent', contentType})`, recorded in the request log. */
  function Request(s: State): (t: State)
    ensures t.requests == s.requests + [s.prefs.contentType]
    ensures t == s.(requests := t.requests)
  {
    s.(requests := s.requests + [s.prefs.contentType])
  }

  /**
   * `showOverlay`: nothing when an overlay exists or the user closed it;
   * otherwise mutes the videos and sends one content request.
   */
  function ShowOverlay(s: State): (t: State)
    ensures s.overlay.Some? || s.closedByUser ==> t == s
    ensures s.overlay.None? && !s.closedByUser ==>
      t.requests == s.requests + [s.prefs.contentType] &&
      t.pendingShow == s.pendingShow + 1 && t.videos == MuteAll(s.videos) &&
      t.overlay == s.overlay && t.adPlaying == s.adPlaying && t.rotating == s.rotating
    ensures s.overlay.None? && !s.closedByUser ==>
      t == s.(videos := t.videos, requests := t.requests, pendingShow := t.pendingShow)
  {
    if s.overlay.Some? || s.closedByUser then
      s
    else
      Request(s.(videos := MuteAll(s.videos))).(pendingShow := s.pendingShow + 1)
  }

  /** `createOverlay`: a new overlay element becomes the handle; a previous one stays in the page. */
  function CreateOverlay(s: State, c: Content): (t: State)
    ensures t.overlay == Some(c)
    ensures t.orphans == if s.overlay.Some? then s.orphans + 1 else s.orphans
    ensures t == s.(overlay := t.overlay, orphans := t.orphans)
  {
    s.(overlay := Some(c), orphans := if s.overlay.Some? then s.orphans + 1 else s.orphans)
  }

  /** `startContentRotation`: stops any rotation, then starts a new one. */
  function StartRotation(s: State): (t: State)
    ensures t.rotating && t == s.(rotating := true)
  {
    StopRotation(s).(rotating := true)
  }

  /**
   * The reply to the show request. It creates an overlay in every case,
   * without checking whether the ad is still playing; only a delivered
   * payload starts rotation.
   */
  function OnShowReply(s: State, r: Reply): (t: State)
    requires s.pendingShow > 0
    ensures t.pendingShow == s.pendingShow - 1
    ensures t.overlay == Some(if r.Delivered? then r.content else Loading)
    ensures t.rotating <==> r.Delivered? || s.rotating
    ensures t.adPlaying == s.adPlaying && t.videos == s.videos && t.requests == s.requests
    ensures t.orphans == if s.overlay.Some? then s.orphans + 1 else s.orphans
    ensures t == s.(pendingShow := t.pendingShow, overlay := t.overlay, orphans := t.orphans, rotating := t.rotating)
  {
    var s1 := s.(pendingShow := s.pendingShow - 1);
    match r
    case LastError => CreateOverlay(s1, Loading)
    case NoContent => CreateOverlay(s1, Loading)
    case Delivered(c) => StartRotation(CreateOverlay(s1, c))
  }

  /** `refreshOverlayContent`: sends a content request when an overlay exists. */
  function Refresh(s: State): (t: State)
    ensures s.overlay.None? ==> t == s
    ensures s.overlay.Some? ==>
      t == s.(requests := s.requests + [s.prefs.contentType], pendingRefresh := s.pendingRefresh + 1)
  {
    if s.overlay.None? then s else Request(s).(pendingRefresh := s.pendingRefresh + 1)
  }

  /** `updateOverlayContent`: replaces the shown payload when an overlay exists. */
  function UpdateOverlay(s: State, c: Content): (t: State)
    ensures s.overlay.None? ==> t == s
    ensures s.overlay.Some? ==> t == s.(overlay := Some(c))
  {
    if s.overlay.None? then s else s.(overlay := Some(c))
  }

  /**
   * The reply to a refresh request. A reply that finds no overlay (it was
   * closed while the request was out) is discarded; an error or an empty
   * reply changes nothing either.
   */
  function OnRefreshReply(s: State, r: Reply): (t: State)
    requires s.pendingRefresh > 0
    ensures t.pendingRefresh == s.pendingRefresh - 1
    ensures s.overlay.None? || !r.Delivered? ==> t == s.(pendingRefresh := s.pendingRefresh - 1)
    ensures s.overlay.Some? && r.Delivered? ==> t.overlay == Some(r.content)
    ensures s.overlay.Some? && r.Delivered? ==>
      t == s.(pendingRefresh := s.pendingRefresh - 1, overlay := Some(r.content))
  {
    var s1 := s.(pendingRefresh := s.pendingRefresh - 1);
    if s1.overlay.None? then s1
    else if r.Delivered? then UpdateOverlay(s1, r.content)
    else s1
  }

  /** The rotation timer fires: refresh while an overlay is shown and not closed by the user. */
  function OnRotationTick(s: State): (t: State)
    ensures t.requests != s.requests ==> s.overlay.Some? && !s.closedByUser
    ensures s.overlay.Some? && !s.closedByUser ==> t == Refresh(s)
    ensures s.overlay.None? || s.closedByUser ==> t == s
  {
    if s.overlay.Some? && !s.closedByUser then Refresh(s) else s
  }

  /**
   * The poll tick, given the detector's verdict: `isAdPlaying` follows the
   * verdict; on a change the dismissal is cleared and the overlay shown (ad
   * began) or hidden (ad ended); without a change nothing happens.
   */
  function OnTick(s: State, adDetected: bool): (t: State)
    ensures t.adPlaying == adDetected
    ensures adDetected == s.adPlaying ==> t == s
    ensures adDetected != s.adPlaying ==> !t.closedByUser
    ensures adDetected && !s.adPlaying ==> t == ShowOverlay(s.(adPlaying := true, closedByUser := false))
    ensures !adDetected && s.adPlaying ==> t == HideOverlay(s.(adPlaying := false, closedByUser := false))
  {
    if adDetected && !s.adPlaying then
      ShowOverlay(s.(adPlaying := true, closedByUser := false))
    else if !adDetected && s.adPlaying then
      HideOverlay(s.(adPlaying := false, closedByUser := false))
    else
      s
  }

  /** The close button's `close-overlay` handler: dismiss, then hide; the ad flag is untouched. */
  function OnUserClose(s: State): (t: State)
    ensures t.closedByUser && t.overlay.None? && t.adPlaying == s.adPlaying
    ensures t == HideOverlay(s.(closedByUser := true))
  {
    HideOverlay(s.(closedByUser := true))
  }

  /** The `storage.onChanged` listener; None means the key did not change. */
  function OnPrefsChanged(s: State, contentType: Option<string>, enabled: Option<bool>): (t: State)
    ensures contentType.Some? ==> t.prefs.contentType == contentType.value
    ensures contentType.None? ==> t.prefs.contentType == s.prefs.contentType
    ensures enabled == Some(true) ==> t.polling
    ensures enabled == Some(false) ==> !t.polling && t.overlay.None?
    ensures enabled == Some(false) ==>
      t.videos == if s.overlay.Some? then UnmuteAll(s.videos) else s.videos
    ensures enabled.None? ==> t == s.(prefs := t.prefs)
    ensures enabled.None? ==> t.prefs.enabled == s.prefs.enabled
    ensures enabled.Some? ==> t.prefs.enabled == enabled.value
    ensures enabled.Some? ==>
      t == SetEnabled(s.(prefs := s.prefs.(contentType := contentType.GetOr(s.prefs.contentType))), enabled.value)
    ensures enabled == Some(false) ==> t.adPlaying == s.adPlaying
    ensures enabled == Some(false) ==> t.rotating == (s.rotating && s.overlay.None?)
  {
    var s1 := s.(prefs := s.prefs.(contentType := contentType.GetOr(s.prefs.contentType)));
    assert s1.videos == s.videos && s1.overlay == s.overlay && s1.rotating == s.rotating;
    if enabled.Some? then SetEnabled(s1, enabled.value) else s1
  }

  /** The `enabled` branch of the listener: cache the flag, then start, or stop and hide. */
  function SetEnabled(s: State, on: bool): (t: State)
    ensures t.prefs == s.prefs.(enabled := on)
    ensures on ==> t == StartDetection(s.(prefs := t.prefs))
    ensures !on ==> t == HideOverlay(StopDetection(s.(prefs := t.prefs)))
    ensures !on ==> !t.polling && t.overlay.None?
    ensures !on ==> t.videos == if s.overlay.Some? then UnmuteAll(s.videos) else s.videos
    ensures !on ==> t.adPlaying == s.adPlaying && t.rotating == (s.rotating && s.overlay.None?)
  {
    var s1 := s.(prefs := s.prefs.(enabled := on));
    if on then StartDetection(s1) else HideOverlay(StopDetection(s1))
  }

  /**
   * The answer to the initial `storage.get`: on an error, detection starts
   * with the cached preferences; otherwise the stored values (a missing or empty
   * content type reads as "news", a missing `enabled` as true) are cached
   * and detection starts when enabled.
   */
  function OnStorageLoaded(s: State, stored: Option<Stored>): (t: State)
    ensures !t.awaitingStorage
    ensures stored.None? ==> t.polling && t.prefs == s.prefs
    ensures stored.Some? ==>
      t.prefs.contentType == (var ct := stored.value.contentType.GetOr(""); if ct == "" then "news" else ct)
    ensures stored.Some? ==>
      t.prefs.enabled == (stored.value.enabled != Some(false)) &&
      (t.prefs.enabled ==> t.polling) && (!t.prefs.enabled ==> t.polling == s.polling)
    ensures t == s.(awaitingStorage := false, prefs := t.prefs, polling := t.polling)
  {
    var s0 := s.(awaitingStorage := false);
    match stored
    case None => StartDetection(s0)
    case Some(st) =>
      var ct := st.contentType.GetOr("");
      var prefs := Prefs(if ct == "" then "news" else ct, st.enabled != Some(false));
      var s1 := s0.(prefs := prefs);
      if prefs.enabled then StartDetection(s1) else s1
  }

  /** The two-second storage timeout: starts detection when it is not running. */
  function OnStorageTimeout(s: State): (t: State)
    ensures !t.timeoutArmed && t.polling
    ensures t == s.(timeoutArmed := false, polling := true)
  {
    var s0 := s.(timeoutArmed := false);
    if !s0.polling then StartDetection(s0) else s0
  }

  // ---------------------------------------------------------------- events

  datatype Event =
    | Tick(page: Detector.Page)
    | ShowReply(reply: Reply)
    | RefreshReply(reply: Reply)
    | RotationTick
    | UserClose
    | PrefsChanged(contentType: Option<string>, enabled: Option<bool>)
    | StorageLoaded(stored: Option<Stored>)
    | StorageTimeout

  /**
   * When an event can happen: a timer fires only while it is set, a reply
   * arrives only for a request that was sent, the close button exists only
   * on an overlay element in the page, and the two start-up events happen once.
   */
  predicate Enabled(s: State, e: Event)
  {
    match e
    case Tick(_) => s.polling
    case ShowReply(_) => s.pendingShow > 0
    case RefreshReply(_) => s.pendingRefresh > 0
    case RotationTick => s.rotating
    case UserClose => s.overlay.Some? || s.orphans > 0
    case PrefsChanged(_, _) => true
    case StorageLoaded(_) => s.awaitingStorage
    case StorageTimeout => s.timeoutArmed
  }

  function Step(s: State, e: Event): State
    requires Enabled(s, e)
  {
    match e
    case Tick(page) => OnTick(s, Detector.AdVisible(page))
    case ShowReply(r) => OnShowReply(s, r)
    case RefreshReply(r) => OnRefreshReply(s, r)
    case RotationTick => OnRotationTick(s)
    case UserClose => OnUserClose(s)
    case PrefsChanged(ct, en) => OnPrefsChanged(s, ct, en)
    case StorageLoaded(st) => OnStorageLoaded(s, st)
    case StorageTimeout => OnStorageTimeout(s)
  }

  /** Every event of `es` is enabled when it happens. */
  predicate Admits(s: State, es: seq<Event>)
    decreases |es|
  {
    |es| == 0 || (Enabled(s, es[0]) && Admits(Step(s, es[0]), es[1..]))
  }

  function Run(s: State, es: seq<Event>): State
    requires Admits(s, es)
    decreases |es|
  {
    if |es| == 0 then s else Run(Step(s, es[0]), es[1..])
  }

  // ---------------------------------------------------------------- invariant

  /**
   * What every reachable state satisfies: rotation runs only while an
   * overlay handle exists, and every video the extension marked is muted.
   */
  predicate Inv(s: State)
  {
    (s.rotating ==> s.overlay.Some?) && MarksMuted(s.videos)
  }

  lemma InitialInv(videos: seq<Video>)
    requires MarksMuted(videos)
    ensures Inv(Initial(videos))
  {
  }

  lemma HideOverlayInv(s: State)
    requires Inv(s)
    ensures Inv(HideOverlay(s))
  {
    if s.overlay.Some? {
      MuteUnmuteKeepMarksMuted(s.videos);
    }
  }

  lemma ShowOverlayInv(s: State)
    requires Inv(s)
    ensures Inv(ShowOverlay(s))
  {
    MuteUnmuteKeepMarksMuted(s.videos);
  }

  lemma TickInv(s: State, ad: bool)
    requires Inv(s)
    ensures Inv(OnTick(s, ad))
  {
    if ad && !s.adPlaying {
      ShowOverlayInv(s.(adPlaying := true, closedByUser := false));
    } else if !ad && s.adPlaying {
      HideOverlayInv(s.(adPlaying := false, closedByUser := false));
    }
  }

  lemma PrefsChangedInv(s: State, contentType: Option<string>, enabled: Option<bool>)
    requires Inv(s)
    ensures Inv(OnPrefsChanged(s, contentType, enabled))
  {
    var s1 := if contentType.Some? then s.(prefs := s.prefs.(contentType := contentType.value)) else s;
    assert Inv(s1);
    if enabled.Some? {
      SetEnabledInv(s1, enabled.value);
    }
  }

  lemma SetEnabledInv(s: State, on: bool)
    requires Inv(s)
    ensures Inv(SetEnabled(s, on))
  {
    if !on {
      HideOverlayInv(StopDetection(s.(prefs := s.prefs.(enabled := false))));
    }
  }

  /** Every handler keeps the invariant. */
  lemma StepInv(s: State, e: Event)
    requires Inv(s) && Enabled(s, e)
    ensures Inv(Step(s, e))
  {
    match e
    case Tick(page) => TickInv(s, Detector.AdVisible(page));
    case UserClose => HideOverlayInv(s.(closedByUser := true));
    case PrefsChanged(ct, en) => PrefsChangedInv(s, ct, en);
    case _ =>
  }

  /** Prepending an enabled event to an admitted trace. */
  lemma RunCons(s: State, e: Event, rest: seq<Event>)
    requires Enabled(s, e) && Admits(Step(s, e), rest)
    ensures Admits(s, [e] + rest) && Run(s, [e] + rest) == Run(Step(s, e), rest)
  {
    assert ([e] + rest)[1..] == rest;
  }

  /** Every run from a state satisfying the invariant ends in one. */
  lemma {:induction false} RunInv(s: State, es: seq<Event>)
    requires Inv(s) && Admits(s, es)
    ensures Inv(Run(s, es))
    decreases |es|
  {
    if |es| > 0 {
      StepInv(s, es[0]);
      RunInv(Step(s, es[0]), es[1..]);
    }
  }

  /** Rotation never fires once the overlay is gone: hiding stops it, and it can start again only with a new overlay. */
  lemma NoRotationWithoutOverlay(s: State, es: seq<Event>)
    requires Inv(s) && Admits(s, es)
    ensures Run(s, es).overlay.None? ==> !Enabled(Run(s, es), RotationTick)
  {
    RunInv(s, es);
  }

  // ---------------------------------------------------------------- poll tick

  /**
   * A tick that detects an ad while none was playing marks the ad as
   * playing, clears the user's dismissal and runs `showOverlay`.
   */
  lemma TickStartsAd(s: State, p: Detector.Page)
    requires s.polling && Detector.AdVisible(p) && !s.adPlaying
    ensures Step(s, Tick(p)) == ShowOverlay(s.(adPlaying := true, closedByUser := false))
    ensures Step(s, Tick(p)).adPlaying && !Step(s, Tick(p)).closedByUser
    ensures s.overlay.None? ==> |Step(s, Tick(p)).requests| == |s.requests| + 1
  {
  }

  /**
   * A tick that finds no ad while one was playing marks the ad as over,
   * clears the user's dismissal and runs `hideOverlay`.
   */
  lemma TickEndsAd(s: State, p: Detector.Page)
    requires s.polling && !Detector.AdVisible(p) && s.adPlaying
    ensures Step(s, Tick(p)) == HideOverlay(s.(adPlaying := false, closedByUser := false))
    ensures !Step(s, Tick(p)).adPlaying && !Step(s, Tick(p)).closedByUser
    ensures Step(s, Tick(p)).overlay.None? && Step(s, Tick(p)).requests == s.requests
    ensures s.overlay.Some? ==> Step(s, Tick(p)).videos == UnmuteAll(s.videos) && !Step(s, Tick(p)).rotating
    ensures s.overlay.None? ==> Step(s, Tick(p)).videos == s.videos
  {
  }

  /**
   * A tick whose verdict agrees with `isAdPlaying` changes nothing: in
   * particular an overlay the user closed during an ad stays closed while
   * the ad goes on.
   */
  lemma TickSteady(s: State, p: Detector.Page)
    requires s.polling && Detector.AdVisible(p) == s.adPlaying
    ensures Step(s, Tick(p)) == s
  {
  }

  /** The close button sets the dismissal flag and hides the overlay, leaving `isAdPlaying` alone. */
  lemma CloseKeepsAd(s: State)
    requires Inv(s) && Enabled(s, UserClose)
    ensures Step(s, UserClose).closedByUser
    ensures Step(s, UserClose).overlay.None? && !Step(s, UserClose).rotating
    ensures Step(s, UserClose).adPlaying == s.adPlaying
  {
  }

  /**
   * Dismiss, then the ad ends, then a new ad starts: the dismissal is
   * cleared and the new ad sends a fresh show request.
   */
  lemma DismissClearedByNextAd(s: State, q: Detector.Page, p: Detector.Page)
    requires s.polling && s.adPlaying && (s.overlay.Some? || s.orphans > 0)
    requires !Detector.AdVisible(q) && Detector.AdVisible(p)
    ensures Admits(s, [UserClose, Tick(q), Tick(p)])
    ensures var t := Run(s, [UserClose, Tick(q), Tick(p)]);
      t.adPlaying && !t.closedByUser && t.overlay.None? &&
      t.requests == s.requests + [s.prefs.contentType] && t.pendingShow == s.pendingShow + 1
  {
    var s1 := Step(s, UserClose);
    var s2 := Step(s1, Tick(q));
    assert s2.overlay.None? && !s2.closedByUser && !s2.adPlaying && s2.polling;
    var s3 := Step(s2, Tick(p));
    RunCons(s2, Tick(p), []);
    RunCons(s1, Tick(q), [Tick(p)]);
    RunCons(s, UserClose, [Tick(q), Tick(p)]);
    assert [UserClose] + [Tick(q), Tick(p)] == [UserClose, Tick(q), Tick(p)];
    assert [Tick(q)] + [Tick(p)] == [Tick(q), Tick(p)];
  }

  /**
   * One ad seen by five ticks (no ad, ad, ad, ad, no ad), with the show
   * reply arriving after the second: exactly one content request is sent,
   * the overlay is shown during the ad and gone afterwards, and every
   * video is as before.
   */
  lemma OneAdScenario(s: State, q: Detector.Page, p: Detector.Page, c: Content)
    requires s.polling && !s.adPlaying && s.overlay.None? && !s.closedByUser && !s.rotating
    requires s.pendingShow == 0 && Unmarked(s.videos)
    requires !Detector.AdVisible(q) && Detector.AdVisible(p)
    ensures Admits(s, [Tick(q), Tick(p), ShowReply(Delivered(c)), Tick(p), Tick(p), Tick(q)])
    ensures var t := Run(s, [Tick(q), Tick(p), ShowReply(Delivered(c)), Tick(p), Tick(p), Tick(q)]);
      t.requests == s.requests + [s.prefs.contentType] && t.pendingShow == 0 &&
      t.overlay.None? && !t.rotating && !t.adPlaying && t.videos == s.videos && t.orphans == s.orphans
  {
    var s1 := Step(s, Tick(q));
    assert s1 == s;
    var s2 := Step(s1, Tick(p));
    assert s2.videos == MuteAll(s.videos) && s2.pendingShow == 1;
    var s3 := Step(s2, ShowReply(Delivered(c)));
    assert s3.overlay == Some(c) && s3.videos == MuteAll(s.videos) && s3.adPlaying;
    var s4 := Step(s3, Tick(p));
    assert s4 == s3;
    var s5 := Step(s4, Tick(p));
    assert s5 == s3;
    var s6 := Step(s5, Tick(q));
    MuteThenUnmuteRestores(s.videos);
    assert s6.videos == s.videos;
    RunCons(s5, Tick(q), []);
    RunCons(s4, Tick(p), [Tick(q)]);
    RunCons(s3, Tick(p), [Tick(p), Tick(q)]);
    RunCons(s2, ShowReply(Delivered(c)), [Tick(p), Tick(p), Tick(q)]);
    RunCons(s1, Tick(p), [ShowReply(Delivered(c)), Tick(p), Tick(p), Tick(q)]);
    RunCons(s, Tick(q), [Tick(p), ShowReply(Delivered(c)), Tick(p), Tick(p), Tick(q)]);
  }

  // ---------------------------------------------------------------- what the source does not guarantee

  /**
   * The show reply does not check whether the ad is still playing. When the
   * ad ends while the show request is out, the ending tick's `hideOverlay`
   * finds nothing to hide, and the reply then creates an overlay, starts
   * rotation and leaves the videos muted, with no ad playing; later no-ad
   * ticks do not remove it.
   */
  lemma OverlayOutlivesAd(s: State, p: Detector.Page, q: Detector.Page, c: Content)
    requires s.polling && !s.adPlaying && s.overlay.None? && !s.closedByUser
    requires Detector.AdVisible(p) && !Detector.AdVisible(q)
    ensures Admits(s, [Tick(p), Tick(q), ShowReply(Delivered(c)), Tick(q)])
    ensures var t := Run(s, [Tick(p), Tick(q), ShowReply(Delivered(c)), Tick(q)]);
      t.overlay == Some(c) && t.rotating && !t.adPlaying && t.videos == MuteAll(s.videos)
  {
    var s1 := Step(s, Tick(p));
    var s2 := Step(s1, Tick(q));
    assert s2.overlay.None? && s2.pendingShow == s.pendingShow + 1;
    var s3 := Step(s2, ShowReply(Delivered(c)));
    var s4 := Step(s3, Tick(q));
    assert s4 == s3;
    RunCons(s3, Tick(q), []);
    RunCons(s2, ShowReply(Delivered(c)), [Tick(q)]);
    RunCons(s1, Tick(q), [ShowReply(Delivered(c)), Tick(q)]);
    RunCons(s, Tick(p), [Tick(q), ShowReply(Delivered(c)), Tick(q)]);
  }

  /**
   * An ad that ends before the show reply, followed by a new ad: the second
   * ad's `showOverlay` still finds no overlay, so a second show request goes
   * out while the first is unanswered.
   */
  lemma TwoShowsPending(s: State, p: Detector.Page, q: Detector.Page)
    requires s.polling && !s.adPlaying && s.overlay.None? && !s.closedByUser
    requires Detector.AdVisible(p) && !Detector.AdVisible(q)
    ensures Admits(s, [Tick(p), Tick(q), Tick(p)])
    ensures var t := Run(s, [Tick(p), Tick(q), Tick(p)]);
      t.overlay.None? && t.pendingShow == s.pendingShow + 2 && t.orphans == s.orphans &&
      |t.requests| == |s.requests| + 2
  {
    var s1 := Step(s, Tick(p));
    assert s1.overlay.None? && s1.adPlaying && s1.polling && s1.pendingShow == s.pendingShow + 1;
    assert s1.orphans == s.orphans && |s1.requests| == |s.requests| + 1;
    var s2 := Step(s1, Tick(q));
    assert s2 == s1.(adPlaying := false, closedByUser := false);
    var s3 := Step(s2, Tick(p));
    RunCons(s2, Tick(p), []);
    RunCons(s1, Tick(q), [Tick(p)]);
    RunCons(s, Tick(p), [Tick(q), Tick(p)]);
  }

  /**
   * Two show requests out at once are both answered with a new overlay: the
   * first overlay element stays in the page with no handle that could
   * remove it.
   */
  lemma TwoOverlays(s: State, r1: Reply, r2: Reply)
    requires s.overlay.None? && s.pendingShow >= 2
    ensures Admits(s, [ShowReply(r1), ShowReply(r2)])
    ensures var t := Run(s, [ShowReply(r1), ShowReply(r2)]);
      t.orphans == s.orphans + 1 && t.overlay.Some? && t.requests == s.requests
  {
    var s1 := Step(s, ShowReply(r1));
    assert s1.overlay.Some? && s1.orphans == s.orphans && s1.pendingShow > 0;
    var s2 := Step(s1, ShowReply(r2));
    RunCons(s1, ShowReply(r2), []);
    RunCons(s, ShowReply(r1), [ShowReply(r2)]);
  }

  /**
   * A rotation tick sends a new refresh request even while an earlier one
   * is unanswered: ticks are not skipped, so requests can pile up.
   */
  lemma RotationDoesNotWait(s: State)
    requires Inv(s) && s.rotating && !s.closedByUser && s.pendingRefresh > 0
    ensures Step(s, RotationTick).pendingRefresh == s.pendingRefresh + 1
    ensures |Step(s, RotationTick).requests| == |s.requests| + 1
  {
  }

  /**
   * A refresh reply is applied to whatever overlay exists when it arrives.
   * A refresh sent for one overlay, the ad ending, a new ad and its show
   * reply, and then the old refresh reply: the new overlay shows the
   * payload that was requested for the old one.
   */
  lemma StaleRefreshUpdatesNewOverlay(s: State, q: Detector.Page, p: Detector.Page, c1: Content, c2: Content)
    requires s.polling && s.adPlaying && s.overlay.Some? && s.rotating && !s.closedByUser
    requires s.pendingRefresh == 0 && s.pendingShow == 0
    requires !Detector.AdVisible(q) && Detector.AdVisible(p)
    ensures var es := [RotationTick, Tick(q), Tick(p), ShowReply(Delivered(c1)), RefreshReply(Delivered(c2))];
      Admits(s, es) && Run(s, es).overlay == Some(c2) && Run(s, es).pendingRefresh == 0
  {
    var s1 := Step(s, RotationTick);
    assert s1.pendingRefresh == 1 && s1.overlay == s.overlay && s1.polling && s1.adPlaying;
    var s2 := Step(s1, Tick(q));
    assert s2.overlay.None? && s2.pendingRefresh == 1 && s2.polling && !s2.adPlaying && !s2.closedByUser;
    var s3 := Step(s2, Tick(p));
    assert s3.overlay.None? && s3.pendingRefresh == 1 && s3.pendingShow == 1;
    var s4 := Step(s3, ShowReply(Delivered(c1)));
    assert s4.overlay == Some(c1) && s4.pendingRefresh == 1;
    var s5 := Step(s4, RefreshReply(Delivered(c2)));
    RunCons(s4, RefreshReply(Delivered(c2)), []);
    RunCons(s3, ShowReply(Delivered(c1)), [RefreshReply(Delivered(c2))]);
    RunCons(s2, Tick(p), [ShowReply(Delivered(c1)), RefreshReply(Delivered(c2))]);
    RunCons(s1, Tick(q), [Tick(p), ShowReply(Delivered(c1)), RefreshReply(Delivered(c2))]);
    RunCons(s, RotationTick, [Tick(q), Tick(p), ShowReply(Delivered(c1)), RefreshReply(Delivered(c2))]);
  }

  /**
   * The storage timeout starts detection whenever polling is off, even when
   * the stored preferences said the extension is disabled.
   */
  lemma DisabledStillStarts(videos: seq<Video>, contentType: Option<string>)
    ensures var es := [StorageLoaded(Some(Stored(contentType, Some(false)))), StorageTimeout];
      Admits(Initial(videos), es) &&
      Run(Initial(videos), es).polling && !Run(Initial(videos), es).prefs.enabled
  {
    var s := Initial(videos);
    var e1 := StorageLoaded(Some(Stored(contentType, Some(false))));
    var s1 := Step(s, e1);
    assert !s1.polling && !s1.prefs.enabled && s1.timeoutArmed;
    var s2 := Step(s1, StorageTimeout);
    RunCons(s1, StorageTimeout, []);
    RunCons(s, e1, [StorageTimeout]);
  }
}
