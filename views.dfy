/**
 * The state `blog_generator/views.py` changes — the BlogPost and User tables
 * and the audio directory on disk — and the views and helpers that change it.
 * The ghost `calls` records every external call, in order, so that the
 * contracts can say which stages ran.
 */
module Views {
  import opened Wrappers
  import opened PyStr
  import opened Credentials
  import opened Responses
  import opened Stages
  import opened Articles
  import opened Accounts

  /** Every stage of `generate_blog` produced a non-empty value and saving the row does not raise. */
  predicate StagesSucceed(s: Settings, before: set<string>, w: World) {
    var audio := DownloadedFile(s.mediaRoot, before, w.download);
    Truthy(YtTitle(w.meta)) && Truthy(TranscriptResult(s, audio, w)) &&
    Truthy(BlogContent(s, w.completion)) && w.persistError.None?
  }

  /**
   * A BlogPost is only saved after both external clients were called and
   * the downloaded audio file was deleted again.
   */
  lemma SuccessCallsEveryStage(s: Settings, before: set<string>, link: string, w: World)
    requires StagesSucceed(s, before, w)
    ensures var audio := DownloadedFile(s.mediaRoot, before, w.download);
      && audio.Some? && audio.value !in FilesAfterTranscript(s, before, w)
      && StagesCalls(s, before, link, w) ==
           [MetadataLookup(link), AudioDownload(link),
            Transcription(audio.value, ResolveKey(s.assemblyAi).value),
            ChatCompletion(ResolveKey(s.groq).value, YtTitle(w.meta).value, TranscriptResult(s, audio, w).value)]
  {
    var audio := DownloadedFile(s.mediaRoot, before, w.download);
    assert AudioRemoved(s, audio, w);
    assert KeyPresent(s.groq);
  }

  /**
   * The response `generate_blog` returns once the link is accepted, where
   * `next` is the id the new row would get: the first stage without a value
   * decides the error, and only a run in which every stage succeeds is 200.
   */
  function StagesResponse(s: Settings, before: set<string>, next: nat, w: World): (r: JsonResponse)
    ensures r.status == OK <==> StagesSucceed(s, before, w)
    ensures r.status == BAD_REQUEST <==> !Truthy(YtTitle(w.meta))
    ensures r.status != OK ==> r.body.ErrorBody?
    ensures var title := YtTitle(w.meta);
      var transcript := TranscriptResult(s, DownloadedFile(s.mediaRoot, before, w.download), w);
      var content := BlogContent(s, w.completion);
      && (!Truthy(title) ==> r == FailureResponse(TitleUnavailable))
      && (Truthy(title) && !Truthy(transcript) ==> r == FailureResponse(TranscriptUnavailable))
      && (Truthy(title) && Truthy(transcript) && !Truthy(content) ==> r == FailureResponse(ContentUnavailable))
      && (Truthy(title) && Truthy(transcript) && Truthy(content) && w.persistError.Some? ==>
            r == FailureResponse(Internal(w.persistError.value)))
      && (StagesSucceed(s, before, w) ==> r == JsonResponse(OK, BlogBody(next, title.value, transcript.value, content.value)))
  {
    var title := YtTitle(w.meta);
    if !Truthy(title) then FailureResponse(TitleUnavailable) else TranscriptResponse(s, before, next, title.value, w)
  }

  /** The response once a title is known: the transcript stage decides, then the content stage. */
  function TranscriptResponse(s: Settings, before: set<string>, next: nat, title: string, w: World): JsonResponse {
    var transcript := TranscriptResult(s, DownloadedFile(s.mediaRoot, before, w.download), w);
    if !Truthy(transcript) then FailureResponse(TranscriptUnavailable)
    else ContentResponse(s, next, title, transcript.value, w)
  }

  /** The response once a title and a transcript are known: the content stage, then the save. */
  function ContentResponse(s: Settings, next: nat, title: string, transcript: string, w: World): JsonResponse {
    var content := BlogContent(s, w.completion);
    if !Truthy(content) then FailureResponse(ContentUnavailable)
    else if w.persistError.Some? then FailureResponse(Internal(w.persistError.value))
    else JsonResponse(OK, BlogBody(next, title, transcript, content.value))
  }

  /**
   * The external calls `generate_blog` makes once the link is accepted: the
   * metadata lookup, then `get_transcript`'s calls only after a title, then
   * Groq only after a transcript.
   */
  function StagesCalls(s: Settings, before: set<string>, link: string, w: World): (cs: seq<Call>)
    ensures 1 <= |cs| && cs[0] == MetadataLookup(link)
    ensures |cs| == 1 <==> !Truthy(YtTitle(w.meta))
    ensures forall k :: 0 <= k < |cs| && !cs[k].MetadataLookup? ==> Truthy(YtTitle(w.meta))
    ensures forall k :: 0 <= k < |cs| && cs[k].Transcription? ==>
              DownloadedFile(s.mediaRoot, before, w.download) == Some(cs[k].audio)
    ensures forall k :: 0 <= k < |cs| && cs[k].ChatCompletion? ==>
              Truthy(TranscriptResult(s, DownloadedFile(s.mediaRoot, before, w.download), w))
  {
    var title := YtTitle(w.meta);
    if !Truthy(title) then [MetadataLookup(link)]
    else [MetadataLookup(link)] + TranscriptStageCalls(s, before, link, title.value, w)
  }

  /** The calls once a title is known: `get_transcript`'s, then Groq's after a transcript. */
  function TranscriptStageCalls(s: Settings, before: set<string>, link: string, title: string, w: World): seq<Call> {
    var audio := DownloadedFile(s.mediaRoot, before, w.download);
    var transcript := TranscriptResult(s, audio, w);
    TranscriptCalls(s, link, audio) + if Truthy(transcript) then CompletionCalls(s, title, transcript.value) else []
  }

  class Site {
    const settings: Settings
    const normalize: Normalize
    var posts: seq<BlogPost>
    var nextPostId: nat
    var users: seq<Account>
    var nextUserId: nat
    var files: set<string>
    var dirs: set<string>
    ghost var calls: seq<Call>

    /** The BlogPost table's keys: row ids increase and are below the next id. */
    ghost predicate PostsValid()
      reads this`posts, this`nextPostId
    {
      0 < nextPostId && PostKeys(posts, nextPostId)
    }

    /** The User table's keys: accounts are distinct and their ids are below the next id. */
    ghost predicate UsersValid()
      reads this`users, this`nextUserId
    {
      0 < nextUserId && AccountKeys(users, nextUserId)
    }

    /** The database keys of both tables. */
    ghost predicate Valid()
      reads this
    {
      PostsValid() && UsersValid()
    }

    /**
     * Empty tables, with the given files and directories already on disk;
     * `normalize` is what `create_user` does to a username and an e-mail.
     */
    constructor (settings: Settings, normalize: Normalize, files: set<string>, dirs: set<string>)
      ensures Valid()
      ensures this.settings == settings && this.normalize == normalize
      ensures this.files == files && this.dirs == dirs
      ensures posts == [] && users == [] && calls == []
    {
      this.settings := settings;
      this.normalize := normalize;
      this.files := files;
      this.dirs := dirs;
      posts, nextPostId := [], 1;
      users, nextUserId := [], 1;
      calls := [];
    }

    /**
     * `download_audio`: create the audio directory, let yt-dlp write its
     * files, and return `audio_dir/<id>.mp3` if and only if that file exists.
     */
    method DownloadAudio(link: string, d: DownloadAnswer) returns (audio: Option<string>)
      modifies this`dirs, this`files, this`calls
      ensures dirs == old(dirs) + {settings.mediaRoot, AudioDir(settings.mediaRoot)}
      ensures files == FilesAfterDownload(old(files), d)
      ensures calls == old(calls) + [AudioDownload(link)]
      ensures audio == DownloadedFile(settings.mediaRoot, old(files), d)
      ensures audio.Some? ==> audio.value in files
    {
      var root := settings.mediaRoot;
      dirs := dirs + {root, AudioDir(root)};
      calls := calls + [AudioDownload(link)];
      files := (files - d.removed) + d.written;
      match d
      case DownloadRaised(_, _) =>
        audio := None;
      case DownloadInfo(_, _, videoId) =>
        if videoId.None? {
          audio := None;  // `info['id']` raises KeyError
        } else {
          var mp3 := AudioPath(root, videoId.value);
          audio := if mp3 in files then Some(mp3) else None;
        }
    }

    /**
     * `get_transcript`: download, then transcribe only when a file came back
     * and the AssemblyAI key is set; delete the file only after a transcription
     * that did not report error status.
     */
    method GetTranscript(link: string, w: World) returns (text: Option<string>)
      modifies this`dirs, this`files, this`calls
      ensures dirs == old(dirs) + {settings.mediaRoot, AudioDir(settings.mediaRoot)}
      ensures files == FilesAfterTranscript(settings, old(files), w)
      ensures text == TranscriptResult(settings, DownloadedFile(settings.mediaRoot, old(files), w.download), w)
      ensures calls == old(calls) + TranscriptCalls(settings, link, DownloadedFile(settings.mediaRoot, old(files), w.download))
    {
      var audio := DownloadAudio(link, w.download);
      if audio.None? {
        return None;
      }
      var key := ResolveKey(settings.assemblyAi);
      if !Truthy(key) {
        return None;  // RuntimeError, caught by the function's own `except`
      }
      calls := calls + [Transcription(audio.value, key.value)];
      match w.transcription
      case TranscriberRaised =>
        text := None;
      case TranscriptionError =>
        text := None;
      case TranscriptionDone(t) =>
        if audio.value in files {
          if !w.removeSucceeds {
            return None;  // `os.remove` raised, caught by the same `except`
          }
          files := files - {audio.value};
        }
        text := t;
    }

    /** `generate_blog_content`: the Groq client is created only when its key is set. */
    method GenerateBlogContent(title: string, transcript: string, c: CompletionAnswer) returns (content: Option<string>)
      modifies this`calls
      ensures content == BlogContent(settings, c)
      ensures calls == old(calls) + CompletionCalls(settings, title, transcript)
      ensures !KeyPresent(settings.groq) ==> content.None? && calls == old(calls)
    {
      var key := ResolveKey(settings.groq);
      if !Truthy(key) {
        return None;  // RuntimeError, caught by the function's own `except`
      }
      calls := calls + [ChatCompletion(key.value, title, transcript)];
      match c
      case CompletionRaised =>
        content := None;
      case Completion(body) =>
        content := if body.None? then None else Some(Strip(body.value));
    }

    /** `BlogPost.objects.create`: one new row, with the next id. */
    method SavePost(user: nat, title: string, link: string, content: string) returns (id: nat)
      requires PostsValid()
      modifies this`posts, this`nextPostId
      ensures PostsValid()
      ensures id == old(nextPostId) && nextPostId == id + 1
      ensures posts == old(posts) + [BlogPost(id, user, title, link, content)]
    {
      id := nextPostId;
      var post := BlogPost(id, user, title, link, content);
      AppendKeepsKeys(posts, id, post);
      posts := posts + [post];
      nextPostId := nextPostId + 1;
    }

    /**
     * The part of `generate_blog` after validation, for an accepted `link`:
     * the three stages in order, stopping at the first empty result, then
     * one BlogPost only when all three produced a value.
     */
    method RunStages(user: nat, link: string, w: World) returns (resp: JsonResponse)
      requires PostsValid()
      modifies this`posts, this`nextPostId, this`dirs, this`files, this`calls
      ensures PostsValid()
      ensures resp == StagesResponse(settings, old(files), old(nextPostId), w)
      ensures calls == old(calls) + StagesCalls(settings, old(files), link, w)
      ensures Truthy(YtTitle(w.meta)) ==>
                files == FilesAfterTranscript(settings, old(files), w) &&
                dirs == old(dirs) + {settings.mediaRoot, AudioDir(settings.mediaRoot)}
      ensures !Truthy(YtTitle(w.meta)) ==> files == old(files) && dirs == old(dirs)
      ensures StagesSucceed(settings, old(files), w) ==>
                posts == old(posts) + [BlogPost(old(nextPostId), user, YtTitle(w.meta).value, link, BlogContent(settings, w.completion).value)] &&
                nextPostId == old(nextPostId) + 1
      ensures !StagesSucceed(settings, old(files), w) ==> posts == old(posts) && nextPostId == old(nextPostId)
    {
      calls := calls + [MetadataLookup(link)];
      var title := YtTitle(w.meta);
      if !Truthy(title) {
        return FailureResponse(TitleUnavailable);
      }
      resp := TranscribeAndWrite(user, link, title.value, w);
    }

    /** The transcript stage and what follows it, once `title` is known. */
    method TranscribeAndWrite(user: nat, link: string, title: string, w: World) returns (resp: JsonResponse)
      requires PostsValid()
      modifies this`posts, this`nextPostId, this`dirs, this`files, this`calls
      ensures PostsValid()
      ensures resp == TranscriptResponse(settings, old(files), old(nextPostId), title, w)
      ensures dirs == old(dirs) + {settings.mediaRoot, AudioDir(settings.mediaRoot)}
      ensures files == FilesAfterTranscript(settings, old(files), w)
      ensures var audio := DownloadedFile(settings.mediaRoot, old(files), w.download);
        var transcript := TranscriptResult(settings, audio, w);
        && calls == old(calls) + TranscriptStageCalls(settings, old(files), link, title, w)
        && (Truthy(transcript) && Truthy(BlogContent(settings, w.completion)) && w.persistError.None? ==>
              posts == old(posts) + [BlogPost(old(nextPostId), user, title, link, BlogContent(settings, w.completion).value)] &&
              nextPostId == old(nextPostId) + 1)
        && (!(Truthy(transcript) && Truthy(BlogContent(settings, w.completion)) && w.persistError.None?) ==>
              posts == old(posts) && nextPostId == old(nextPostId))
    {
      var transcript := GetTranscript(link, w);
      if !Truthy(transcript) {
        return FailureResponse(TranscriptUnavailable);
      }
      resp := WriteArticle(user, link, title, transcript.value, w);
    }

    /** The content stage and the save, once `title` and `transcript` are known. */
    method WriteArticle(user: nat, link: string, title: string, transcript: string, w: World) returns (resp: JsonResponse)
      requires PostsValid()
      modifies this`posts, this`nextPostId, this`calls
      ensures PostsValid()
      ensures resp == ContentResponse(settings, old(nextPostId), title, transcript, w)
      ensures calls == old(calls) + CompletionCalls(settings, title, transcript)
      ensures Truthy(BlogContent(settings, w.completion)) && w.persistError.None? ==>
                posts == old(posts) + [BlogPost(old(nextPostId), user, title, link, BlogContent(settings, w.completion).value)] &&
                nextPostId == old(nextPostId) + 1
      ensures !(Truthy(BlogContent(settings, w.completion)) && w.persistError.None?) ==>
                posts == old(posts) && nextPostId == old(nextPostId)
    {
      var content := GenerateBlogContent(title, transcript, w.completion);
      if !Truthy(content) {
        return FailureResponse(ContentUnavailable);
      }
      if w.persistError.Some? {
        return FailureResponse(Internal(w.persistError.value));  // the catch-all `except`
      }
      var id := SavePost(user, title, link, content.value);
      resp := JsonResponse(OK, BlogBody(id, title, transcript, content.value));
    }

    /**
     * `generate_blog`, for the logged-in user `user`: the method, body and
     * link checks, none of which calls out; then the stages.
     */
    method GenerateBlog(user: nat, req: Request, w: World) returns (resp: JsonResponse)
      requires PostsValid()
      modifies this`posts, this`nextPostId, this`dirs, this`files, this`calls
      ensures PostsValid()
      ensures Validate(req).Refuse? ==>
                resp == FailureResponse(Validate(req).failure) &&
                posts == old(posts) && nextPostId == old(nextPostId) &&
                files == old(files) && dirs == old(dirs) && calls == old(calls)
      ensures Validate(req).Accept? ==>
                resp == StagesResponse(settings, old(files), old(nextPostId), w) &&
                calls == old(calls) + StagesCalls(settings, old(files), Validate(req).link, w)
      ensures Validate(req).Accept? && Truthy(YtTitle(w.meta)) ==>
                files == FilesAfterTranscript(settings, old(files), w) &&
                dirs == old(dirs) + {settings.mediaRoot, AudioDir(settings.mediaRoot)}
      ensures Validate(req).Accept? && !Truthy(YtTitle(w.meta)) ==> files == old(files) && dirs == old(dirs)
      ensures posts != old(posts) <==> Validate(req).Accept? && StagesSucceed(settings, old(files), w)
      ensures posts != old(posts) ==>
                posts == old(posts) + [BlogPost(old(nextPostId), user, YtTitle(w.meta).value, Validate(req).link,
                                                BlogContent(settings, w.completion).value)] &&
                nextPostId == old(nextPostId) + 1
      ensures posts == old(posts) ==> nextPostId == old(nextPostId) && resp.body.ErrorBody?
    {
      var checked := Validate(req);
      if checked.Refuse? {
        return FailureResponse(checked.failure);
      }
      resp := RunStages(user, checked.link, w);
    }

    /**
     * `user_signup`: the password check, then the username check, then the
     * e-mail check; `create_user` runs only when all three pass.
     */
    method UserSignup(httpMethod: string, f: SignupForm) returns (page: Page)
      requires UsersValid()
      modifies this`users, this`nextUserId
      ensures UsersValid()
      ensures SignupOutcome(users, nextUserId, page) == Signup(old(users), old(nextUserId), normalize, httpMethod, f)
    {
      var o := Signup(users, nextUserId, normalize, httpMethod, f);
      SignupKeepsKeys(users, nextUserId, normalize, httpMethod, f);
      users, nextUserId, page := o.users, o.next, o.page;
    }
  }
}
