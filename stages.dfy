/**
 * The three stages `generate_blog` runs after validation (`yt_title`,
 * `get_transcript` with `download_audio`, `generate_blog_content`), with every
 * external library reduced to the answer it gives.
 */
module Stages {
  import opened Wrappers
  import opened PyStr
  import opened Credentials

  /** Process configuration: `settings.MEDIA_ROOT` and the two API key sources. */
  datatype Settings = Settings(mediaRoot: string, assemblyAi: KeySources, groq: KeySources)

  /** An external call, as recorded in the trace of a run. */
  datatype Call =
    | MetadataLookup(link: string)                                 // yt-dlp, download=False
    | AudioDownload(link: string)                                  // yt-dlp, download=True
    | Transcription(audio: string, key: string)                    // AssemblyAI
    | ChatCompletion(key: string, title: string, transcript: string) // Groq

  /** yt-dlp's metadata answer: it raised, or returned an info dict whose `'title'` may be absent. */
  datatype MetaAnswer = MetaRaised | MetaInfo(title: Option<string>)

  /**
   * yt-dlp's download answer, with the files the download wrote and those it
   * deleted (the post-processor removes the file it converted to `.mp3`,
   * which may have been on disk before the call). It raised, or returned an
   * info dict whose `'id'` may be absent (`info['id']` then raises).
   */
  datatype DownloadAnswer =
    | DownloadRaised(written: set<string>, removed: set<string>)
    | DownloadInfo(written: set<string>, removed: set<string>, videoId: Option<string>)

  /** AssemblyAI's answer: it raised, reported error status, or finished with `transcript.text`. */
  datatype TranscribeAnswer = TranscriberRaised | TranscriptionError | TranscriptionDone(text: Option<string>)

  /**
   * Groq's answer: it raised (including an empty `choices` list), or returned
   * a first choice whose `message.content` may be `None`.
   */
  datatype CompletionAnswer = CompletionRaised | Completion(content: Option<string>)

  /** Every answer the outside world gives during one `generate_blog` request. */
  datatype World = World(
    meta: MetaAnswer,
    download: DownloadAnswer,
    transcription: TranscribeAnswer,
    removeSucceeds: bool,         // `os.remove(audio_file)` does not raise
    completion: CompletionAnswer,
    persistError: Option<string>) // `BlogPost.objects.create` raised, with `str(e)`

  /** `yt_title`: the title, or `None` when yt-dlp raised or gave no title. */
  function YtTitle(m: MetaAnswer): Option<string> {
    match m
    case MetaRaised => None
    case MetaInfo(t) => t
  }

  /** `Path(settings.MEDIA_ROOT) / 'audio_files'`. */
  function AudioDir(root: string): string {
    root + "/audio_files"
  }

  /** `audio_dir / f"{video_id}.mp3"`. */
  function AudioPath(root: string, videoId: string): string {
    AudioDir(root) + "/" + videoId + ".mp3"
  }

  /** Two videos share an audio file only when they have the same id. */
  lemma {:induction false} AudioPathInjective(root: string, a: string, b: string)
    requires AudioPath(root, a) == AudioPath(root, b)
    ensures a == b
  {
    var n := |AudioDir(root) + "/"|;
    assert |a| == |b|;
    assert a == AudioPath(root, a)[n..n + |a|];
    assert b == AudioPath(root, b)[n..n + |b|];
  }

  /**
   * The files on disk once the download has finished or raised: a file that
   * was there stays unless yt-dlp deleted it, and a new file is one it wrote.
   */
  function FilesAfterDownload(before: set<string>, d: DownloadAnswer): (after: set<string>)
    ensures before - d.removed <= after
    ensures after - before <= d.written
    ensures d.written <= after
    ensures d.removed == {} ==> before <= after
  {
    (before - d.removed) + d.written
  }

  /**
   * What `download_audio` returns: the `.mp3` path for the video's id when
   * that file exists after the download, otherwise `None`.
   */
  function DownloadedFile(root: string, before: set<string>, d: DownloadAnswer): (r: Option<string>)
    ensures r.Some? <==>
              d.DownloadInfo? && d.videoId.Some? &&
              AudioPath(root, d.videoId.value) in FilesAfterDownload(before, d)
    ensures r.Some? ==> r.value == AudioPath(root, d.videoId.value) && r.value in FilesAfterDownload(before, d)
  {
    match d
    case DownloadRaised(_, _) => None
    case DownloadInfo(_, _, id) =>
      if id.Some? && AudioPath(root, id.value) in FilesAfterDownload(before, d)
      then Some(AudioPath(root, id.value)) else None
  }

  /** The transcriber is called: a file was downloaded and the AssemblyAI key is set. */
  predicate TranscriberCalled(s: Settings, audio: Option<string>) {
    audio.Some? && KeyPresent(s.assemblyAi)
  }

  /** `get_transcript` deletes the audio file: the transcription finished and `os.remove` succeeded. */
  predicate AudioRemoved(s: Settings, audio: Option<string>, w: World) {
    TranscriberCalled(s, audio) && w.transcription.TranscriptionDone? && w.removeSucceeds
  }

  /** What `get_transcript` returns, given the file `download_audio` returned. */
  function TranscriptResult(s: Settings, audio: Option<string>, w: World): (r: Option<string>)
    ensures r.Some? ==> AudioRemoved(s, audio, w) && r == w.transcription.text
    ensures AudioRemoved(s, audio, w) ==> r == w.transcription.text
  {
    if !TranscriberCalled(s, audio) then None
    else match w.transcription
      case TranscriberRaised => None
      case TranscriptionError => None
      case TranscriptionDone(text) => if w.removeSucceeds then text else None
  }

  /**
   * The files on disk once `get_transcript` returns: those the download left,
   * less the audio file when it was removed.
   */
  function FilesAfterTranscript(s: Settings, before: set<string>, w: World): (after: set<string>)
    ensures after <= FilesAfterDownload(before, w.download)
    ensures var audio := DownloadedFile(s.mediaRoot, before, w.download);
      && (audio.Some? ==> (audio.value in after <==> !AudioRemoved(s, audio, w)))
      && (audio.None? ==> after == FilesAfterDownload(before, w.download))
      && (audio.Some? ==> FilesAfterDownload(before, w.download) - after <= {audio.value})
  {
    var audio := DownloadedFile(s.mediaRoot, before, w.download);
    if AudioRemoved(s, audio, w) then FilesAfterDownload(before, w.download) - {audio.value}
    else FilesAfterDownload(before, w.download)
  }

  /** The external calls `get_transcript` makes: the download, then the transcriber if it is reached. */
  function TranscriptCalls(s: Settings, link: string, audio: Option<string>): (cs: seq<Call>)
    ensures 1 <= |cs| <= 2 && cs[0] == AudioDownload(link)
    ensures |cs| == 2 <==> TranscriberCalled(s, audio)
    ensures |cs| == 2 ==> cs[1] == Transcription(audio.value, ResolveKey(s.assemblyAi).value)
  {
    [AudioDownload(link)] +
    if TranscriberCalled(s, audio) then [Transcription(audio.value, ResolveKey(s.assemblyAi).value)] else []
  }

  /**
   * The promises of `get_transcript`, given the files before it runs: no
   * transcriber call and no text without a downloaded file or without a key;
   * after error status the file is still there; text only comes back once
   * the file is gone.
   */
  lemma GetTranscriptFacts(s: Settings, before: set<string>, link: string, w: World)
    ensures var audio := DownloadedFile(s.mediaRoot, before, w.download);
      var text := TranscriptResult(s, audio, w);
      var after := FilesAfterTranscript(s, before, w);
      && (audio.None? ==> text.None? && TranscriptCalls(s, link, audio) == [AudioDownload(link)])
      && (!KeyPresent(s.assemblyAi) ==> text.None? && TranscriptCalls(s, link, audio) == [AudioDownload(link)])
      && (audio.Some? && w.transcription.TranscriptionError? ==> text.None? && audio.value in after)
      && (audio.Some? && !w.removeSucceeds ==> text.None? && audio.value in after)
      && (text.Some? ==> audio.Some? && audio.value !in after && text == w.transcription.text)
  {
  }

  /** What `generate_blog_content` returns: the stripped first completion, or `None`. */
  function BlogContent(s: Settings, c: CompletionAnswer): (r: Option<string>)
    ensures !KeyPresent(s.groq) ==> r.None?
    ensures r.Some? ==> IsStripped(r.value)
    ensures r.Some? ==> c.Completion? && c.content.Some? && r.value == Strip(c.content.value)
    ensures Truthy(r) <==>
              KeyPresent(s.groq) && c.Completion? && c.content.Some? &&
              !AllSpace(c.content.value, 0, |c.content.value|)
  {
    if !KeyPresent(s.groq) then None
    else match c
      case CompletionRaised => None
      case Completion(content) =>
        if content.None? then None
        else
          StripEmptyIff(content.value);
          Some(Strip(content.value))
  }

  /** The external call `generate_blog_content` makes: the Groq client, only when its key is set. */
  function CompletionCalls(s: Settings, title: string, transcript: string): (cs: seq<Call>)
    ensures |cs| == 1 <==> KeyPresent(s.groq)
    ensures |cs| == 1 ==> cs[0] == ChatCompletion(ResolveKey(s.groq).value, title, transcript)
    ensures |cs| <= 1
  {
    if KeyPresent(s.groq) then [ChatCompletion(ResolveKey(s.groq).value, title, transcript)] else []
  }
}
