/**
 * The content payload exchanged between the background worker and the
 * content script (`{type: ..., ...}` objects), and the overlay header chosen
 * from its type tag.
 */
module Payload {

  /** A content payload; its JavaScript `type` field is `Tag()`. */
  datatype Content =
    | Loading
    | News(title: string, description: string, source: string)
    | Poem(title: string, author: string, lines: string)
    | Language(word: string, translation: string, example: string)
  {
    function Tag(): (t: string)
      ensures t in KnownTags
    {
      match this
      case Loading => "loading"
      case News(_, _, _) => "news"
      case Poem(_, _, _) => "poem"
      case Language(_, _, _) => "language"
    }
  }

  /** The content types a user can choose and the background worker serves. */
  const ContentTypes: set<string> := {"news", "poem", "language"}

  /** Every tag a payload can carry. */
  const KnownTags: set<string> := ContentTypes + {"loading"}

  /** Header shown when the tag has no entry in the header table. */
  const DefaultHeader: string := "AdLapse"

  /**
   * `getHeaderText`: a lookup in a fixed table of four headers with
   * `DefaultHeader` for every other tag.
   */
  function HeaderText(tag: string): (h: string)
    ensures h == DefaultHeader <==> tag !in KnownTags
    ensures tag == "loading" ==> h == "\U{23F3} Loading..."
  {
    match tag
    case "news" => "\U{1F4F0} Latest News"
    case "poem" => "\U{1F4D6} Poetry Corner"
    case "language" => "\U{1F30D} Learn Something New"
    case "loading" => "\U{23F3} Loading..."
    case _ => DefaultHeader
  }

  /** Different known tags get different headers. */
  lemma HeaderTextInjective(a: string, b: string)
    requires a in KnownTags && b in KnownTags && a != b
    ensures HeaderText(a) != HeaderText(b)
  {
  }

  /** Every payload is shown under its own header, never the default one. */
  lemma PayloadHeader(c: Content)
    ensures HeaderText(c.Tag()) != DefaultHeader
  {
  }
}
