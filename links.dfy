/** The YouTube link test of `generate_blog`: a plain substring check, no URL parsing. */
module Links {
  import opened PyStr

  const YOUTUBE_HOST := "youtube.com"
  const SHORT_HOST := "youtu.be"

  /** `'youtube.com' in link or 'youtu.be' in link`. */
  predicate IsYouTubeLink(link: string) {
    Contains(link, YOUTUBE_HOST) || Contains(link, SHORT_HOST)
  }

  /** Any string in which one of the two host names occurs, anywhere, is accepted. */
  lemma {:induction false} AcceptsEveryOccurrence(link: string, i: nat)
    requires OccursAt(link, YOUTUBE_HOST, i) || OccursAt(link, SHORT_HOST, i)
    ensures IsYouTubeLink(link)
  {
    ContainsIff(link, YOUTUBE_HOST);
    ContainsIff(link, SHORT_HOST);
  }

  /** A link without the letter 'y' is never accepted, whatever host it names. */
  lemma {:induction false} RejectsWithoutY(link: string)
    requires forall k :: 0 <= k < |link| ==> link[k] != 'y'
    ensures !IsYouTubeLink(link)
  {
    MissingFirstChar(link, YOUTUBE_HOST);
    MissingFirstChar(link, SHORT_HOST);
  }

  /** The short-link form and a link to another video site. */
  lemma ExampleLinks()
    ensures IsYouTubeLink("https://youtu.be/abc123")
    ensures !IsYouTubeLink("https://vimeo.com/123")
  {
    AcceptsEveryOccurrence("https://youtu.be/abc123", 8);
    RejectsWithoutY("https://vimeo.com/123");
  }
}
