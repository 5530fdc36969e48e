# YouTube blog generator: request handling in `blog_generator/views.py`

This project models the request-handling logic of the Django application's
`blog_generator/views.py` and proves properties of it:

- `generate_blog` checks the HTTP method, the JSON body, that a link is
  present, and that it names one of the two YouTube hosts. It then runs
  three stages in order: the video title (`yt_title`), the transcript
  (`get_transcript` with `download_audio`) and the article
  (`generate_blog_content`). It stops at the first stage that returns
  nothing. A `BlogPost` row is saved only when all three produced a value.
- `get_transcript` downloads the audio. It calls the AssemblyAI
  transcriber only when a file came back and a key is configured, and
  deletes the audio file only after a transcription that did not report
  error status.
- `blog_list` and `blog_details` read the BlogPost table for the
  logged-in user.
- `user_login` and `user_signup` validate their forms in a fixed order;
  `user_signup` appends to the User table.

Every library the view calls is reduced to the answer it gives:

- yt-dlp's metadata and download answers, including the files the download
  writes and the files it deletes.
- AssemblyAI's transcription answer, and whether `os.remove` succeeds.
- Groq's completion.
- A possible error from `BlogPost.objects.create`.

One request's answers are bundled in `Stages.World`. The environment
variables and Django settings that hold the API keys are
`Credentials.KeySources`. Django's `authenticate` is a function parameter
of `UserLogin`. What `create_user` does to the username and the e-mail
before saving them is `Accounts.Normalize`, a constant of `Views.Site`.

Modules, in dependency order:

| file | module | contents |
|---|---|---|
| wrappers.dfy | `Wrappers` | `Option` |
| pystr.dfy | `PyStr` | Python truthiness of an optional string, the `in` substring test, whitespace as `str.strip()` sees it, and `Strip` |
| links.dfy | `Links` | the YouTube host test |
| credentials.dfy | `Credentials` | `os.getenv(NAME) or getattr(settings, NAME, None)` |
| responses.dfy | `Responses` | requests, JSON responses, the failure messages and statuses, the validation before any stage |
| stages.dfy | `Stages` | the external answers and the pure meaning of `yt_title`, `download_audio`, `get_transcript` and `generate_blog_content` |
| articles.dfy | `Articles` | the BlogPost table, `blog_list`, `blog_details` |
| accounts.dfy | `Accounts` | the User table, `user_login`, `user_signup` |
| views.dfy | `Views` | class `Site`, holding the state the views change, and the methods that change it |

`Views.Site` holds the BlogPost table and its next id, the User table and
its next id, and the files and directories on disk. It also holds a ghost
trace `calls` of every external call made, in order. Its invariant `Valid`
is the conjunction of one predicate per table. Each view requires and keeps
the one for the table it writes:

- `PostsValid`: row ids increase and lie below the next id;
- `UsersValid`: accounts have distinct ids and usernames, and their ids lie
  below the next id. E-mail addresses may repeat (see
  `Accounts.SharedEmailExample`).

Each method that changes the state states the whole new state through pure
functions (in `Stages`, `Accounts`, and `StagesResponse` and `StagesCalls`
in `Views`). `generate_blog` is split into one method per stage:
`RunStages`, `TranscribeAndWrite`, `WriteArticle` and `SavePost`. The properties of those functions are
proved as their contracts and as separate lemmas.

## Model

| member | source | states |
|---|---|---|
| PyStr.ContainsIff | blog_generator/views.py:41 | the scan `Contains` (Python's `sub in s`) is true exactly when `sub` occurs in `s` at some index |
| PyStr.OccursShift | blog_generator/views.py:41 | when `sub` does not start `s`, `sub` occurs in `s` exactly when it occurs in `s[1..]` |
| PyStr.MissingFirstChar | blog_generator/views.py:41 | a non-empty string whose first character never appears in `s` is not contained in `s` |
| PyStr.TrimStartFacts | blog_generator/views.py:216 | `lstrip()` returns a suffix of the input, everything cut off is whitespace, and the result does not start with whitespace |
| PyStr.TrimEndFacts | blog_generator/views.py:216 | `rstrip()` returns a prefix of the input, everything cut off is whitespace, and the result does not end with whitespace |
| PyStr.Strip | blog_generator/views.py:216 | `str.strip()`: the result neither starts nor ends with whitespace and is no longer than the input |
| PyStr.StripInfix | blog_generator/views.py:216 | the stripped string sits inside the input with only whitespace on either side |
| PyStr.StripEmptyIff | blog_generator/views.py:216 | stripping yields the empty string exactly when the input is all whitespace |
| PyStr.StrippedIsFixed | blog_generator/views.py:227-228 | a string with no surrounding whitespace is unchanged by stripping |
| PyStr.StripIdempotent | blog_generator/views.py:227-228 | stripping twice is stripping once |
| PyStr.StripUnique | blog_generator/views.py:242-243 | any non-empty middle part that neither starts nor ends with whitespace, and has only whitespace around it, is what stripping returns |
| Links.AcceptsEveryOccurrence | blog_generator/views.py:41 | a link in which `youtube.com` or `youtu.be` occurs at any position is accepted |
| Links.RejectsWithoutY | blog_generator/views.py:41 | a link without the letter `y` is refused |
| Links.ExampleLinks | blog_generator/views.py:41 | `https://youtu.be/abc123` is accepted and `https://vimeo.com/123` is refused |
| Credentials.ResolveKey | blog_generator/views.py:154 | the key is usable exactly when the environment or the settings value is non-empty; a non-empty environment value wins; otherwise the settings value is used |
| Responses.FailureResponse | blog_generator/views.py:31-54 | every failure gets an error body; status 405 exactly for the method check; 400 exactly for missing link, non-YouTube link and missing title; 500 exactly for transcript, content and internal errors; a `detail` field exactly for internal errors |
| Responses.FailureResponseInjective | blog_generator/views.py:31-74 | no two failure kinds share a response |
| Responses.Validate | blog_generator/views.py:31-42 | the checks in order: non-POST is refused first; then an exception while reading the body becomes an internal error with its text; then a missing or empty link; then a link is refused exactly when it names neither host and accepted exactly when it is a non-empty link naming one |
| Stages.AudioPathInjective | blog_generator/views.py:134 | different video ids give different `.mp3` paths |
| Stages.FilesAfterDownload | blog_generator/views.py:119-132 | a file on disk before the download stays unless yt-dlp deleted it (the post-processor removes the file it converted); every new file is one yt-dlp wrote, and all of those are on disk; without deletions no file is lost |
| Stages.DownloadedFile | blog_generator/views.py:133-138 | a path is returned exactly when yt-dlp returned an id and `audio_dir/<id>.mp3` exists after the download; the path returned is that file |
| Stages.TranscriptResult | blog_generator/views.py:146-179 | text comes back only when the transcriber was called, finished, and the audio file was removed; it is then the service's text |
| Stages.FilesAfterTranscript | blog_generator/views.py:169-172 | after `get_transcript` the downloaded audio file is gone exactly when it was removed, and no other file is touched |
| Stages.TranscriptCalls | blog_generator/views.py:148-161 | the download always runs first; the transcriber runs, with the file and the resolved key, exactly when a file came back and the key is set |
| Stages.GetTranscriptFacts | blog_generator/views.py:148-174 | no file or no key: no text and no transcriber call; error status or a failing `os.remove`: no text and the file stays; text only once the file is gone |
| Stages.BlogContent | blog_generator/views.py:183-221 | no key: no content; content is always stripped and is the stripped first completion; it is non-empty exactly when the key is set and the completion is not all whitespace |
| Stages.CompletionCalls | blog_generator/views.py:188-192 | Groq is called once, with the resolved key, exactly when its key is set, and otherwise not at all |
| Articles.AppendKeepsKeys | blog_generator/views.py:57-62 | appending a row with the next id keeps ids increasing and in range |
| Articles.FindPost | blog_generator/views.py:87 | a row found has the requested id; none is found exactly when no row has it |
| Articles.FindPostUnique | blog_generator/views.py:87 | with unique ids the lookup returns the one row with that id |
| Articles.BlogDetails | blog_generator/views.py:86-93 | 404 exactly when no row has the id; an article is shown only to its owner; a redirect only when the row exists and belongs to someone else |
| Articles.DetailsOnlyForOwner | blog_generator/views.py:90-93 | an existing article is shown exactly when the requester owns it, and otherwise the view redirects |
| Articles.BlogList | blog_generator/views.py:79-80 | the list holds only the caller's posts and every one of them |
| Articles.BlogListOrdered | blog_generator/views.py:80 | the list keeps table order |
| Accounts.UserLogin | blog_generator/views.py:225-237 | non-POST shows the empty form; an empty field after stripping gives "Please fill all fields"; login happens exactly when both stripped fields are non-empty and `authenticate` accepts them, as the user it returns; otherwise "Invalid username or password" |
| Accounts.LoginChecksFieldsFirst | blog_generator/views.py:230-236 | with an empty field, the outcome does not depend on `authenticate` |
| Accounts.LoginIgnoresSurroundingSpaces | blog_generator/views.py:227-228 | forms that agree after stripping get the same outcome |
| Accounts.SignupDecision | blog_generator/views.py:242-257 | the checks in order: passwords differ, then username taken, then e-mail taken; creation is allowed exactly when all three pass, with the stripped username and e-mail |
| Accounts.SignupError | blog_generator/views.py:247-257 | every refusal has a non-empty message |
| Accounts.AddAccountKeepsKeys | blog_generator/views.py:253 | adding an account with the next id and a free username keeps ids and usernames distinct and the ids in range |
| Accounts.CreateUser | blog_generator/views.py:253 | `create_user` raises exactly when the username it is given is empty or its normalised form is already stored; otherwise the row has the next id, the normalised username and e-mail, and the password |
| Accounts.Signup | blog_generator/views.py:240-259 | existing accounts never change and at most one is appended; an account is appended, and its user logged in, exactly when a POST passes all three checks on the stripped strings and `create_user` does not raise; the row has the next id, the normalised username and e-mail, and the password as typed; the id advances exactly when an account is appended; a refused check shows the form with its message; a raising `create_user` is a server error |
| Accounts.SignupKeepsKeys | blog_generator/views.py:247-255 | every outcome of a signup keeps ids and usernames distinct and ids below the next id |
| Accounts.SignupNeverTwice | blog_generator/views.py:247-255 | after a successful signup, submitting the same form again never creates a second account, whatever the normalisation does |
| Accounts.SignupTwiceRefused | blog_generator/views.py:248-249 | when normalisation leaves the username unchanged, the same form submitted after a successful signup is refused with "Username already taken" and nothing changes |
| Accounts.SharedEmailExample | blog_generator/views.py:250-253 | the e-mail check compares the address as typed with the stored, normalised addresses, so "a" and then "b" can both sign up with "x@EXAMPLE.com" |
| Views.SuccessCallsEveryStage | blog_generator/views.py:44-62 | when every stage succeeds, the downloaded file is gone afterwards and the calls are exactly: the metadata lookup, the download, the transcription of that file with the resolved key, and one Groq completion with the resolved key, the title and the transcript |
| Views.StagesResponse | blog_generator/views.py:44-74 | once the link is accepted: status 200 exactly when every stage succeeds and the save does not raise; 400 exactly when the title is missing; every other response has an error body; the first stage without a value decides the error (title, then transcript, then content, then a save error as an internal error); on success the body carries the new id, the title, the transcript and the content |
| Views.StagesCalls | blog_generator/views.py:44-52 | the metadata lookup comes first and is the only call when there is no title; no later call happens without a title; the transcriber is only called on the file the download produced; Groq is only called after a non-empty transcript |
| Views.Site.DownloadAudio | blog_generator/views.py:111-142 | the media and audio directories exist afterwards; the download's files were added; the call is recorded; the result is `DownloadedFile` and names a file on disk |
| Views.Site.GetTranscript | blog_generator/views.py:146-179 | the files, result and calls are `FilesAfterTranscript`, `TranscriptResult` and `TranscriptCalls` of the state before |
| Views.Site.GenerateBlogContent | blog_generator/views.py:183-221 | the result is `BlogContent`; Groq is recorded as called exactly as `CompletionCalls` says; with no key nothing is called |
| Views.Site.SavePost | blog_generator/views.py:57-62 | exactly one row (user, title, link, content) is appended, with the next id, which is returned; the table's keys are kept |
| Views.Site.RunStages | blog_generator/views.py:44-70 | the response is `StagesResponse` and the calls are `StagesCalls` of the state before; without a title no file or directory changes; after a title the files are `FilesAfterTranscript` and the media and audio directories exist; exactly one post (user, title, link, content) with the next id is saved, and the next id advances by one, when every stage succeeds; otherwise the table and its next id are unchanged |
| Views.Site.TranscribeAndWrite | blog_generator/views.py:48-70 | once a title is known: the directories, files, calls and response are those of the transcript stage and what follows it; a post is saved, and the next id advances by one, exactly when the transcript and the content are non-empty and the save does not raise |
| Views.Site.WriteArticle | blog_generator/views.py:52-74 | once a title and a transcript are known: the response is `ContentResponse`, Groq is called as `CompletionCalls` says, and a post is saved, and the next id advances by one, exactly when the content is non-empty and the save does not raise |
| Views.Site.GenerateBlog | blog_generator/views.py:30-74 | a refused request gets its failure's response and changes and calls nothing; an accepted one gets `StagesResponse` and makes the calls of `StagesCalls`, leaves the files and directories unchanged without a title, and otherwise leaves the files `FilesAfterTranscript` with the media and audio directories created; the BlogPost table changes exactly when the request is accepted and every stage succeeds, by the single post the response echoes, and the next id then advances by one; otherwise the next id is unchanged and the response is an error; the BlogPost table's keys are kept |
| Views.Site.UserSignup | blog_generator/views.py:240-259 | the User table, the next id and the page are those of `Signup` with the site's normalisation, and the User table's keys are kept |

## Left out

- yt-dlp, FFmpeg, AssemblyAI and Groq are not modelled: they are foreign network libraries. Each is the answer it gives, in `Stages.World`.
- The prompt text, the model name, `max_tokens` and `temperature` are not modelled: they are constants passed to Groq, with nothing to prove about them.
- JSON parsing is not modelled. Every exception raised before the stages run is one `Raised` payload, carrying its text. This covers invalid JSON, a body that is valid JSON but not an object (`data.get` raises), and a truthy number or boolean as the link (`in` raises). A falsy non-string link is `LinkField(None)`.
- A JSON list or object as the link is not modelled. `in` is then a membership test and raises nothing: `["youtu.be"]` passes validation and fails in `yt_title` with 400 "Failed to fetch YouTube title", and `["x"]` is refused as not a YouTube URL. The model's link is always a string.
- The catch-all `except` around the stages is reachable here only through a database error on `BlogPost.objects.create`. The stages catch their own exceptions.
- Django rendering, redirects, sessions, `@login_required`, `authenticate`, `login`, `logout`, password hashing and CSRF exemption are framework I/O. The logged-in user is a parameter, and `authenticate` is an oracle function.
- `health_check`, `index` and `user_logout` have no logic beyond the framework.
- The `created_at` timestamp of a BlogPost is not modelled: it is the clock.
- Logging (`print`, `traceback.print_exc`) is not modelled: it has no observable effect on the outcome.
- Concurrency on the shared `audio_files` directory is not modelled: one request runs at a time.
- `mkdir` failing is not modelled: the audio directory is always created. Directories above the media root are not tracked.
- Paths are plain string concatenation. `pathlib` normalisation, such as a trailing slash in the media root, is not modelled.
- Setting the global `aai.settings.api_key` is not modelled: it affects nothing outside the transcription call.
- Accounts.Normalize: NFKC normalisation and lower-casing of the e-mail domain are not computed. They are a function supplied with the site, and the username's emptiness is checked before normalising it and its uniqueness after, as `create_user` and the database do.
- Accounts.CreateUser: other failures of the insert, such as a username over 150 characters on a database that enforces the length, are not modelled. Neither is a concurrent signup racing the `exists()` queries. A failed insert does not consume an id here, whereas some databases skip a sequence value.
- Articles.BlogList: the queryset's default ordering is modelled as table order, which is insertion order.
- `YtTitle` has no contract of its own, as it only picks the title out of yt-dlp's answer. What it means for `generate_blog` is stated by `Views.Site.RunStages`.

## Behaviour of the code worth noting

- `os.remove` sits inside `get_transcript`'s `try`, so a failing removal after a successful transcription makes `get_transcript` return `None`. The request then ends with "Could not retrieve transcript".
- Several different failures give the same response:
  - a failed download and a missing AssemblyAI key both give "Could not retrieve transcript" (500);
  - a missing Groq key gives "Failed to generate blog content" (500);
  - a failed save gives the catch-all "Internal server error" (500), with the exception text in `detail`.
- A transcription that finishes with no text still deletes the audio file. The request then fails with "Could not retrieve transcript".
- `user_signup` checks the username and the e-mail as typed, but `create_user` stores them normalised. Two accounts can therefore share an e-mail address (`Accounts.SharedEmailExample`). A resubmitted username that normalisation changes, such as a full-width one, passes the view's username check. It is then refused as "Email already in use", or `create_user` raises, instead of showing "Username already taken". Either way no second account is created (`Accounts.SignupNeverTwice`).
