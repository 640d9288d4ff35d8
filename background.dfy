/**
 * The background worker's answer to a `getContent` request: dispatch on the
 * requested content type, then shape the fetched data into a payload, with a
 * fixed fallback payload when the data is missing or the fetch failed.
 *
 * The network and JSON parsing are not modelled: their outcome is an input
 * (`NewsFetch`, `PoemFetch`). A draw of `Math.random()` is an input `r` with
 * 0 <= r < 1, as the JavaScript library promises.
 */
module Background {
  import opened Wrappers
  import opened Payload

  /** One entry of the news listing (`children[k].data`). */
  datatype Post = Post(title: string, selftext: string)

  /** What fetching and parsing the news listing produced. */
  datatype NewsFetch =
    | NewsFailed                                // the fetch or the JSON parsing threw
    | NewsListing(children: Option<seq<Post>>)  // `data.data.children`; None when either is missing

  /** One poem of the poem service's answer. */
  datatype PoemRecord = PoemRecord(title: string, author: string, lines: seq<string>)

  /** What fetching and parsing the random poem produced. */
  datatype PoemFetch =
    | PoemFailed                       // the fetch or parsing threw, or the answer is not a list
    | PoemList(poems: seq<PoemRecord>)

  const NewsSource: string := "Reddit r/worldnews"
  const ReadMore: string := "Click to read more..."
  const DescriptionLimit: nat := 200
  const PoemLineLimit: nat := 8
  const Ellipsis: string := "\n..."

  const NewsFallback: Content :=
    News("Stay curious and keep learning!",
         "Unable to fetch live news at the moment. Check your connection.",
         "Prime Overlay")

  const PoemFallback: Content :=
    Poem("The Road Not Taken", "Robert Frost",
         "Two roads diverged in a yellow wood,\nAnd sorry I could not travel both\n"
         + "And be one traveler, long I stood\nAnd looked down one as far as I could\n"
         + "To where it bent in the undergrowth;")

  /** The curated vocabulary list of the language content type. */
  const Words: seq<Content> := [
    Language("Serendipity", "Finding something good without looking for it",
             "Meeting my best friend was pure serendipity."),
    Language("Ephemeral", "Lasting for a very short time",
             "The beauty of cherry blossoms is ephemeral."),
    Language("Resilience", "The ability to recover quickly from difficulties",
             "Her resilience helped her overcome many challenges."),
    Language("Eloquent", "Fluent and persuasive in speaking or writing",
             "The speaker gave an eloquent presentation."),
    Language("Ubiquitous", "Present or appearing everywhere",
             "Smartphones have become ubiquitous in modern life."),
    Language("Meticulous", "Showing great attention to detail; very careful",
             "She was meticulous in her research."),
    Language("Paradigm", "A typical example or pattern of something",
             "The discovery shifted the scientific paradigm."),
    Language("Ambiguous", "Open to more than one interpretation; unclear",
             "His answer was deliberately ambiguous.")
  ]

  /** `Math.floor(r * n)`: the index a random draw `r` selects among `n` items. */
  function RandomIndex(r: real, n: nat): (i: nat)
    requires 0.0 <= r < 1.0 && n > 0
    ensures i < n
  {
    var x := r * (n as real);
    assert 0.0 <= x < n as real by {
      assert r * (n as real) < 1.0 * (n as real);
    }
    x.Floor
  }

  /** Every index can be drawn: the draw k / n selects item k. */
  lemma RandomIndexReaches(k: nat, n: nat)
    requires k < n
    ensures 0.0 <= (k as real) / (n as real) < 1.0
    ensures RandomIndex((k as real) / (n as real), n) == k
  {
    var r := (k as real) / (n as real);
    assert r * (n as real) == k as real;
  }

  /** `selftext.substring(0, 200) || 'Click to read more...'` */
  function Description(selftext: string): (d: string)
    ensures selftext == [] ==> d == ReadMore
    ensures selftext != [] ==> 0 < |d| <= DescriptionLimit && |d| <= |selftext| && d == selftext[..|d|]
    ensures selftext != [] && |selftext| <= DescriptionLimit ==> d == selftext
    ensures |selftext| > DescriptionLimit ==> |d| == DescriptionLimit
  {
    var prefix := if |selftext| <= DescriptionLimit then selftext else selftext[..DescriptionLimit];
    if prefix == [] then ReadMore else prefix
  }

  /** The listing has at least one post. */
  predicate HasPosts(f: NewsFetch)
  {
    f.NewsListing? && f.children.Some? && |f.children.value| > 0
  }

  /** `getNewsContent`, after the fetch: one post of the listing, chosen by `r`, or the fallback. */
  function NewsContent(f: NewsFetch, r: real): (c: Content)
    requires 0.0 <= r < 1.0
    ensures c.News? && c.Tag() == "news"
    ensures !HasPosts(f) ==> c == NewsFallback
    ensures HasPosts(f) ==>
      c.source == NewsSource &&
      exists k :: 0 <= k < |f.children.value| &&
        c.title == f.children.value[k].title &&
        c.description == Description(f.children.value[k].selftext)
  {
    if HasPosts(f) then
      var posts := f.children.value;
      var post := posts[RandomIndex(r, |posts|)];
      News(post.title, Description(post.selftext), NewsSource)
    else
      NewsFallback
  }

  /** `lines.join(sep)`: the strings of `xs`, separated by `sep`. */
  function Join(xs: seq<string>, sep: string): string
  {
    if |xs| == 0 then ""
    else if |xs| == 1 then xs[0]
    else xs[0] + sep + Join(xs[1..], sep)
  }

  /** Joining two non-empty lists puts one separator between their joins. */
  lemma {:induction false} JoinAppend(xs: seq<string>, ys: seq<string>, sep: string)
    requires |xs| > 0 && |ys| > 0
    ensures Join(xs + ys, sep) == Join(xs, sep) + sep + Join(ys, sep)
  {
    if |xs| == 1 {
      assert (xs + ys)[1..] == ys;
    } else {
      assert (xs + ys)[1..] == xs[1..] + ys;
      JoinAppend(xs[1..], ys, sep);
    }
  }

  /**
   * The shown text of a poem (`lines.slice(0, 8).join('\n')` plus the
   * marker). A short poem is shown whole. A long one is shown as its first
   * eight lines, which are exactly the beginning of the whole poem's text,
   * followed by the marker "\n...".
   */
  function PoemLines(lines: seq<string>): (t: string)
    ensures |lines| <= PoemLineLimit ==> t == Join(lines, "\n")
    ensures |lines| > PoemLineLimit ==>
      |t| >= |Ellipsis| &&
      t[|t| - |Ellipsis|..] == Ellipsis &&
      t[..|t| - |Ellipsis|] + "\n" <= Join(lines, "\n")
    ensures |lines| > PoemLineLimit ==>
      t[..|t| - |Ellipsis|] + "\n" + Join(lines[PoemLineLimit..], "\n") == Join(lines, "\n")
  {
    var shown := if |lines| <= PoemLineLimit then lines else lines[..PoemLineLimit];
    var t := Join(shown, "\n") + (if |lines| > PoemLineLimit then Ellipsis else "");
    if |lines| > PoemLineLimit then
      var head, tail := lines[..PoemLineLimit], lines[PoemLineLimit..];
      assert lines == head + tail;
      JoinAppend(head, tail, "\n");
      assert t[..|t| - |Ellipsis|] == Join(head, "\n");
      t
    else
      t
  }

  /** `getPoemContent`, after the fetch: the first poem of the answer, or the fallback. */
  function PoemContent(f: PoemFetch): (c: Content)
    ensures c.Poem? && c.Tag() == "poem"
    ensures (f.PoemFailed? || |f.poems| == 0) ==> c == PoemFallback
    ensures f.PoemList? && |f.poems| > 0 ==>
      c.title == f.poems[0].title && c.author == f.poems[0].author &&
      c.lines == PoemLines(f.poems[0].lines)
  {
    if f.PoemList? && |f.poems| > 0 then
      var poem := f.poems[0];
      Poem(poem.title, poem.author, PoemLines(poem.lines))
    else
      PoemFallback
  }

  /** `getLanguageContent`: one entry of the curated list, chosen by `r`. */
  function LanguageContent(r: real): (c: Content)
    requires 0.0 <= r < 1.0
    ensures c in Words && c.Language? && c.Tag() == "language"
  {
    Words[RandomIndex(r, |Words|)]
  }

  /** Each of the eight curated entries is the answer for some draw. */
  lemma EveryWordReachable(k: nat)
    requires k < |Words|
    ensures exists r: real :: 0.0 <= r < 1.0 && LanguageContent(r) == Words[k]
  {
    RandomIndexReaches(k, |Words|);
    var r := (k as real) / (|Words| as real);
    assert LanguageContent(r) == Words[k];
  }

  /**
   * `getContent`: the payload for a requested content type. A known type is
   * answered with a payload of that type; any other value with `Loading`.
   */
  function GetContent(tag: string, news: NewsFetch, poems: PoemFetch, r: real): (c: Content)
    requires 0.0 <= r < 1.0
    ensures tag in ContentTypes ==> c.Tag() == tag
    ensures tag !in ContentTypes ==> c == Loading
  {
    match tag
    case "news" => NewsContent(news, r)
    case "poem" => PoemContent(poems)
    case "language" => LanguageContent(r)
    case _ => Loading
  }
}
