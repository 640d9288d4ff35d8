/**
 * The ad detector (`detectAd`): a read-only scan of the player's page state.
 *
 * The page is abstracted to the elements the detector queries: the ad timer
 * elements (with their rendered width and text content) and three optional
 * indicator elements (with their rendered width). A missing element is
 * `None`, which the detector treats as "no signal", never as an error.
 */
module Detector {
  import opened Wrappers

  /** An element matched by one of the ad timer class selectors. */
  datatype TimerElement = TimerElement(width: int, text: string)

  /** An indicator element; only its rendered width matters. */
  datatype Element = Element(width: int)

  /**
   * What the detector can see of the page at one poll. The three indicators
   * are `querySelector` results: only the first matching element in document
   * order is seen, so a later, rendered match is ignored when the first one
   * is not rendered.
   */
  datatype Page = Page(
    timers: seq<TimerElement>,       // every ad timer text / timer / countdown element, in document order
    seekUnavailable: Option<Element>, // first "seek unavailable during ads" message
    goAdFree: Option<Element>,        // first "go ad free" button inside the player
    resumeMessage: Option<Element>)   // first "your video continues after the break" message

  /**
   * The characters `String.prototype.trim` removes: the ECMAScript
   * WhiteSpace and LineTerminator code points.
   */
  predicate IsSpace(c: char)
  {
    c == '\t' || c == '\n' || c == '\U{B}' || c == '\U{C}' || c == '\r' ||
    c == ' ' || c == '\U{A0}' || c == '\U{1680}' || ('\U{2000}' <= c <= '\U{200A}') ||
    c == '\U{2028}' || c == '\U{2029}' || c == '\U{202F}' || c == '\U{205F}' ||
    c == '\U{3000}' || c == '\U{FEFF}'
  }

  function TrimStart(s: string): string
  {
    if |s| > 0 && IsSpace(s[0]) then TrimStart(s[1..]) else s
  }

  function TrimEnd(s: string): string
  {
    if |s| > 0 && IsSpace(s[|s| - 1]) then TrimEnd(s[..|s| - 1]) else s
  }

  /** `s.trim()` */
  function Trim(s: string): string
  {
    TrimEnd(TrimStart(s))
  }

  /**
   * Lower-case mapping of one character, for the two letters the detector
   * looks for: under Unicode case mapping only 'A' lower-cases to 'a' and
   * only 'D' to 'd', so an ASCII mapping decides `toLowerCase().includes('ad')`.
   */
  function Lower(c: char): char
  {
    if 'A' <= c <= 'Z' then (c as int - 'A' as int + 'a' as int) as char else c
  }

  /** `s.toLowerCase().includes('ad')` */
  predicate ContainsAd(s: string)
  {
    exists i :: 0 <= i < |s| - 1 && Lower(s[i]) == 'a' && Lower(s[i + 1]) == 'd'
  }

  /** A timer element signals an ad: it is rendered and its trimmed text is non-empty and contains "ad". */
  predicate TimerShowsAd(t: TimerElement)
  {
    t.width > 0 && Trim(t.text) != "" && ContainsAd(Trim(t.text))
  }

  /** An optional indicator element signals an ad: it exists and is rendered. */
  predicate Shown(e: Option<Element>)
  {
    e.Some? && e.value.width > 0
  }

  /**
   * The detector's verdict: some ad signal is present on the page. A page
   * where none of the queried elements exists is never an ad.
   */
  predicate AdVisible(p: Page)
    ensures AdVisible(p) ==>
      |p.timers| > 0 || p.seekUnavailable.Some? || p.goAdFree.Some? || p.resumeMessage.Some?
  {
    (exists k :: 0 <= k < |p.timers| && TimerShowsAd(p.timers[k])) ||
    Shown(p.seekUnavailable) || Shown(p.goAdFree) || Shown(p.resumeMessage)
  }

  /**
   * `detectAd`: checks the timer elements in document order, then the three
   * indicators in priority order, and stops at the first signal.
   */
  method DetectAd(p: Page) returns (found: bool)
    ensures found <==> AdVisible(p)
  {
    var i := 0;
    while i < |p.timers|
      invariant 0 <= i <= |p.timers|
      invariant forall k :: 0 <= k < i ==> !TimerShowsAd(p.timers[k])
    {
      var element := p.timers[i];
      if element.width > 0 {
        var text := Trim(element.text);
        if text != "" && ContainsAd(text) {
          return true;
        }
      }
      i := i + 1;
    }
    if p.seekUnavailable.Some? && p.seekUnavailable.value.width > 0 {
      return true;
    }
    if p.goAdFree.Some? && p.goAdFree.value.width > 0 {
      return true;
    }
    if p.resumeMessage.Some? && p.resumeMessage.value.width > 0 {
      return true;
    }
    return false;
  }

  /** Dropping a leading space keeps exactly the same "ad" occurrences. */
  lemma ContainsAdDropFirst(s: string)
    requires |s| > 0 && IsSpace(s[0])
    ensures ContainsAd(s[1..]) <==> ContainsAd(s)
  {
    if ContainsAd(s) {
      var i :| 0 <= i < |s| - 1 && Lower(s[i]) == 'a' && Lower(s[i + 1]) == 'd';
      assert i > 0;
      assert Lower(s[1..][i - 1]) == 'a' && Lower(s[1..][i]) == 'd';
    }
    if ContainsAd(s[1..]) {
      var i :| 0 <= i < |s[1..]| - 1 && Lower(s[1..][i]) == 'a' && Lower(s[1..][i + 1]) == 'd';
      assert Lower(s[i + 1]) == 'a' && Lower(s[i + 2]) == 'd';
    }
  }

  /** Dropping a trailing space keeps exactly the same "ad" occurrences. */
  lemma ContainsAdDropLast(s: string)
    requires |s| > 0 && IsSpace(s[|s| - 1])
    ensures ContainsAd(s[..|s| - 1]) <==> ContainsAd(s)
  {
    var t := s[..|s| - 1];
    if ContainsAd(s) {
      var i :| 0 <= i < |s| - 1 && Lower(s[i]) == 'a' && Lower(s[i + 1]) == 'd';
      assert i + 1 < |s| - 1;
      assert Lower(t[i]) == 'a' && Lower(t[i + 1]) == 'd';
    }
    if ContainsAd(t) {
      var i :| 0 <= i < |t| - 1 && Lower(t[i]) == 'a' && Lower(t[i + 1]) == 'd';
      assert Lower(s[i]) == 'a' && Lower(s[i + 1]) == 'd';
    }
  }

  lemma {:induction false} ContainsAdTrimStart(s: string)
    ensures ContainsAd(TrimStart(s)) <==> ContainsAd(s)
  {
    if |s| > 0 && IsSpace(s[0]) {
      ContainsAdDropFirst(s);
      ContainsAdTrimStart(s[1..]);
    }
  }

  lemma {:induction false} ContainsAdTrimEnd(s: string)
    ensures ContainsAd(TrimEnd(s)) <==> ContainsAd(s)
  {
    if |s| > 0 && IsSpace(s[|s| - 1]) {
      ContainsAdDropLast(s);
      ContainsAdTrimEnd(s[..|s| - 1]);
    }
  }

  /**
   * Trimming neither creates nor hides an "ad": a timer element signals an
   * ad exactly when it is rendered and its raw text contains "ad" (the
   * non-empty check is implied).
   */
  lemma TimerShowsAdRaw(t: TimerElement)
    ensures TimerShowsAd(t) <==> t.width > 0 && ContainsAd(t.text)
  {
    ContainsAdTrimStart(t.text);
    ContainsAdTrimEnd(TrimStart(t.text));
  }

  /** A page without any rendered signal element is never classified as an ad. */
  lemma NoSignalNoAd(p: Page)
    requires forall k :: 0 <= k < |p.timers| ==> p.timers[k].width <= 0
    requires !Shown(p.seekUnavailable) && !Shown(p.goAdFree) && !Shown(p.resumeMessage)
    ensures !AdVisible(p)
  {
  }
}
