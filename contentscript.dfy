/**
 * The content script as it runs: an object whose fields are the script's
 * module-level variables and whose methods are its handlers, updating those
 * fields in place. Each handler is proved to leave the object in the state
 * the corresponding function of module Lifecycle gives, and to keep the
 * invariant `Lifecycle.Inv`.
 */
module ContentScript {
  import opened Wrappers
  import opened Payload
  import Detector
  import L = Lifecycle

  class AdLapse {
    var overlay: Option<Content>
    var orphans: nat
    var adPlaying: bool
    var polling: bool
    var closedByUser: bool
    var rotating: bool
    var prefs: L.Prefs
    var videos: seq<L.Video>
    var requests: seq<string>
    var pendingShow: nat
    var pendingRefresh: nat
    var awaitingStorage: bool
    var timeoutArmed: bool

    /** The object's fields as a `Lifecycle.State`. */
    function Snapshot(): (s: L.State)
      reads this
      ensures s.overlay == overlay && s.adPlaying == adPlaying && s.videos == videos
    {
      L.State(overlay, orphans, adPlaying, polling, closedByUser, rotating, prefs,
              videos, requests, pendingShow, pendingRefresh, awaitingStorage, timeoutArmed)
    }

    ghost predicate Valid()
      reads this
    {
      L.Inv(Snapshot())
    }

    /** Loading the script and running `init`: the preference read and its timeout are now outstanding. */
    constructor (pageVideos: seq<L.Video>)
      requires L.MarksMuted(pageVideos)
      ensures Valid() && Snapshot() == L.Initial(pageVideos)
    {
      overlay, orphans := None, 0;
      adPlaying, polling, closedByUser, rotating := false, false, false, false;
      prefs := L.DefaultPrefs;
      videos := pageVideos;
      requests, pendingShow, pendingRefresh := [], 0, 0;
      awaitingStorage, timeoutArmed := true, true;
    }

    method StartAdDetection()
      modifies this`polling
      ensures Snapshot() == L.StartDetection(old(Snapshot()))
    {
      if polling {
        return;
      }
      polling := true;
    }

    method StopAdDetection()
      modifies this`polling
      ensures Snapshot() == L.StopDetection(old(Snapshot()))
    {
      if polling {
        polling := false;
      }
    }

    /** `muteVideos`, one video at a time. */
    method MuteVideos()
      modifies this`videos
      ensures videos == L.MuteAll(old(videos))
    {
      var i := 0;
      while i < |videos|
        invariant 0 <= i <= |videos| == |old(videos)|
        invariant forall k :: 0 <= k < i ==> videos[k] == L.MuteOne(old(videos)[k])
        invariant forall k :: i <= k < |videos| ==> videos[k] == old(videos)[k]
      {
        if !videos[i].muted {
          videos := videos[i := L.Video(true, true)];
        }
        i := i + 1;
      }
      L.MuteAllAt(old(videos));
    }

    /** `unmuteVideos`, one video at a time. */
    method UnmuteVideos()
      modifies this`videos
      ensures videos == L.UnmuteAll(old(videos))
    {
      var i := 0;
      while i < |videos|
        invariant 0 <= i <= |videos| == |old(videos)|
        invariant forall k :: 0 <= k < i ==> videos[k] == L.UnmuteOne(old(videos)[k])
        invariant forall k :: i <= k < |videos| ==> videos[k] == old(videos)[k]
      {
        if videos[i].marked {
          videos := videos[i := L.Video(false, false)];
        }
        i := i + 1;
      }
      L.UnmuteAllAt(old(videos));
    }

    method StopContentRotation()
      modifies this`rotating
      ensures Snapshot() == L.StopRotation(old(Snapshot()))
    {
      if rotating {
        rotating := false;
      }
    }

    method StartContentRotation()
      modifies this`rotating
      ensures Snapshot() == L.StartRotation(old(Snapshot()))
    {
      StopContentRotation();
      rotating := true;
    }

    /** Sends `{action: 'getContent', contentType}` to the background worker. */
    method SendContentRequest()
      modifies this`requests
      ensures Snapshot() == L.Request(old(Snapshot()))
    {
      requests := requests + [prefs.contentType];
    }

    method ShowOverlay()
      modifies this
      ensures Snapshot() == L.ShowOverlay(old(Snapshot()))
    {
      if overlay.Some? {
        return;
      }
      if closedByUser {
        return;
      }
      MuteVideos();
      SendContentRequest();
      pendingShow := pendingShow + 1;
    }

    method HideOverlay()
      modifies this
      ensures Snapshot() == L.HideOverlay(old(Snapshot()))
    {
      if overlay.Some? {
        overlay := None;
        StopContentRotation();
        UnmuteVideos();
      }
    }

    method CreateOverlay(c: Content)
      modifies this`overlay, this`orphans
      ensures Snapshot() == L.CreateOverlay(old(Snapshot()), c)
    {
      if overlay.Some? {
        orphans := orphans + 1;
      }
      overlay := Some(c);
    }

    method UpdateOverlayContent(c: Content)
      modifies this`overlay
      ensures Snapshot() == L.UpdateOverlay(old(Snapshot()), c)
    {
      if overlay.None? {
        return;
      }
      overlay := Some(c);
    }

    method RefreshOverlayContent()
      modifies this
      ensures Snapshot() == L.Refresh(old(Snapshot()))
    {
      if overlay.None? {
        return;
      }
      SendContentRequest();
      pendingRefresh := pendingRefresh + 1;
    }

    // ------------------------------------------------------------ events

    /** The 500 ms poll tick of `startAdDetection`. */
    method PollTick(page: Detector.Page)
      requires Valid() && polling
      modifies this
      ensures Valid() && Snapshot() == L.Step(old(Snapshot()), L.Tick(page))
    {
      L.StepInv(Snapshot(), L.Tick(page));
      var adDetected := Detector.DetectAd(page);
      if adDetected && !adPlaying {
        adPlaying := true;
        closedByUser := false;
        ShowOverlay();
      } else if !adDetected && adPlaying {
        adPlaying := false;
        closedByUser := false;
        HideOverlay();
      }
    }

    /** The callback of the show request. */
    method ShowResponse(reply: L.Reply)
      requires Valid() && pendingShow > 0
      modifies this
      ensures Valid() && Snapshot() == L.Step(old(Snapshot()), L.ShowReply(reply))
    {
      L.StepInv(Snapshot(), L.ShowReply(reply));
      pendingShow := pendingShow - 1;
      match reply
      case LastError =>
        CreateOverlay(Loading);
      case Delivered(c) =>
        CreateOverlay(c);
        StartContentRotation();
      case NoContent =>
        CreateOverlay(Loading);
    }

    /** The callback of a refresh request. */
    method RefreshResponse(reply: L.Reply)
      requires Valid() && pendingRefresh > 0
      modifies this
      ensures Valid() && Snapshot() == L.Step(old(Snapshot()), L.RefreshReply(reply))
    {
      L.StepInv(Snapshot(), L.RefreshReply(reply));
      pendingRefresh := pendingRefresh - 1;
      if overlay.None? {
        return;
      }
      if reply.LastError? {
        return;
      }
      if reply.Delivered? {
        UpdateOverlayContent(reply.content);
      }
    }

    /** The 20 s rotation tick of `startContentRotation`. */
    method RotationTick()
      requires Valid() && rotating
      modifies this
      ensures Valid() && Snapshot() == L.Step(old(Snapshot()), L.RotationTick)
    {
      L.StepInv(Snapshot(), L.RotationTick);
      if overlay.Some? && !closedByUser {
        RefreshOverlayContent();
      }
    }

    /** The overlay's `close-overlay` listener. */
    method UserClose()
      requires Valid() && (overlay.Some? || orphans > 0)
      modifies this
      ensures Valid() && Snapshot() == L.Step(old(Snapshot()), L.UserClose)
    {
      L.StepInv(Snapshot(), L.UserClose);
      closedByUser := true;
      HideOverlay();
    }

    /** The `storage.onChanged` listener. */
    method PreferencesChanged(contentType: Option<string>, enabled: Option<bool>)
      requires Valid()
      modifies this
      ensures Valid() && Snapshot() == L.Step(old(Snapshot()), L.PrefsChanged(contentType, enabled))
    {
      L.StepInv(Snapshot(), L.PrefsChanged(contentType, enabled));
      if contentType.Some? {
        prefs := prefs.(contentType := contentType.value);
      }
      if enabled.Some? {
        SetEnabled(enabled.value);
      }
    }

    method SetEnabled(on: bool)
      modifies this
      ensures Snapshot() == L.SetEnabled(old(Snapshot()), on)
    {
      prefs := prefs.(enabled := on);
      if on {
        StartAdDetection();
      } else {
        StopAdDetection();
        HideOverlay();
      }
    }

    /** The callback of the initial `storage.get`; None when `lastError` is set. */
    method StorageResponse(stored: Option<L.Stored>)
      requires Valid() && awaitingStorage
      modifies this
      ensures Valid() && Snapshot() == L.Step(old(Snapshot()), L.StorageLoaded(stored))
    {
      L.StepInv(Snapshot(), L.StorageLoaded(stored));
      awaitingStorage := false;
      if stored.None? {
        StartAdDetection();
        return;
      }
      var ct := stored.value.contentType.GetOr("");
      prefs := L.Prefs(if ct == "" then "news" else ct, stored.value.enabled != Some(false));
      if prefs.enabled {
        StartAdDetection();
      }
    }

    /** The two-second fallback timer of `init`. */
    method StorageTimeout()
      requires Valid() && timeoutArmed
      modifies this
      ensures Valid() && Snapshot() == L.Step(old(Snapshot()), L.StorageTimeout)
    {
      L.StepInv(Snapshot(), L.StorageTimeout);
      timeoutArmed := false;
      if !polling {
        StartAdDetection();
      }
    }
  }
}
