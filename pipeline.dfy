/** How the functions see one persona record in turn: the upload endpoint writes it, the
    processor polls it, and the progress endpoint reports on it.

    A record written by one function and read by another goes through `JSON.stringify` and
    `JSON.parse`; the functions here state what each reader gets from the fields the writer
    set.

    The upload's record is the one the intended `uploadsStore().set` would store
    (`DopUploads.Handle`); as written the upload stores nothing (`DopUploads.HandleAsWritten`). */
module Pipeline {
  import opened Wrappers
  import DopUploads
  import VideoProcessor
  import CheckVideo
  import Text

  /** The upload's record as the processor parses it: the prompts are bare strings, and
      there are no videos, no pending renders, no failures and no status. */
  function AsProcessorRecord(p: DopUploads.NewPersona): (r: VideoProcessor.StoredPersona)
    ensures r.prompts == Some(TextPrompts(p.prompts))
    ensures r.videos.None? && r.pending.None? && r.failures.None? && r.status.None?
  {
    VideoProcessor.StoredPersona(None, Some(TextPrompts(p.prompts)), None, None, None)
  }

  /** Prompts written as strings read back as keyless prompts. */
  function TextPrompts(prompts: seq<string>): (r: seq<VideoProcessor.Prompt>)
    ensures |r| == |prompts|
    ensures forall i :: 0 <= i < |r| ==> r[i] == VideoProcessor.TextPrompt(prompts[i])
  {
    seq(|prompts|, i requires 0 <= i < |prompts| => VideoProcessor.TextPrompt(prompts[i]))
  }

  /** The upload's record as the progress endpoint parses it. */
  function AsProgressRecord(p: DopUploads.NewPersona): (r: CheckVideo.VideoRecord)
    ensures r.prompts == Some(|p.prompts|)
    ensures r.videos.None? && r.videoRequests.None? && r.status == ""
  {
    CheckVideo.VideoRecord(Some(|p.prompts|), None, None, "")
  }

  /** What every record the upload builds satisfies (`BuildPersona` ensures it, with the
      form's name): its prompts are the generated ones for its bio. */
  predicate Uploaded(p: DopUploads.NewPersona, name: string) {
    p.prompts == DopUploads.GeneratePersonaPrompts(p.bio, name)
  }

  lemma BuiltIsUploaded(form: DopUploads.UploadForm, dopId: string, created: string,
                        voiceId: Option<string>, avatarId: Option<string>)
    ensures Uploaded(DopUploads.BuildPersona(form, dopId, created, voiceId, avatarId), form.name)
  {
  }

  /** A freshly uploaded persona is never made ready by the processor and never written by
      it: its prompts carry no keys, and it has nothing pending. */
  lemma FreshUploadStaysProcessing(p: DopUploads.NewPersona, name: string,
                                   blobs: VideoProcessor.Store, key: string, rounds: nat,
                                   provider: VideoProcessor.Provider)
    requires Uploaded(p, name)
    requires key in blobs && blobs[key] == VideoProcessor.Json(AsProcessorRecord(p))
    ensures VideoProcessor.Process(blobs, key, rounds, provider)
         == VideoProcessor.Outcome(VideoProcessor.Done(key, "processing"), None)
  {
    KeylessRecordStaysProcessing(p.prompts, blobs, key, rounds, provider);
  }

  /** A record of bare-string prompts with nothing pending is reported as processing and
      left as it is. */
  lemma KeylessRecordStaysProcessing(prompts: seq<string>, blobs: VideoProcessor.Store, key: string,
                                     rounds: nat, provider: VideoProcessor.Provider)
    requires |prompts| > 0
    requires key in blobs
    requires blobs[key] == VideoProcessor.Json(VideoProcessor.StoredPersona(None, Some(TextPrompts(prompts)), None, None, None))
    ensures VideoProcessor.Process(blobs, key, rounds, provider)
         == VideoProcessor.Outcome(VideoProcessor.Done(key, "processing"), None)
  {
    var p := VideoProcessor.Persona([], TextPrompts(prompts), [], None, None);
    assert VideoProcessor.Normalize(blobs[key].doc) == p;
    VideoProcessor.TextPromptsNeverReady(p);
    NothingPendingNothingPolled(p, rounds, provider);
  }

  /** With nothing pending the polling loop changes nothing. */
  lemma NothingPendingNothingPolled(p: VideoProcessor.Persona, rounds: nat, provider: VideoProcessor.Provider)
    requires p.pending == []
    ensures VideoProcessor.Poll(p, 0, rounds, provider) == (p, false)
  {
    if rounds > 0 {
      assert VideoProcessor.Pass(p, [], 0, provider) == VideoProcessor.PassState(p, false, 0);
    }
  }

  /** The progress endpoint reports a fresh upload as not started: all of its prompts are
      still to be rendered, none is done, and the status is unknown. */
  lemma FreshUploadProgress(p: DopUploads.NewPersona, name: string, dopId: string)
    requires Uploaded(p, name)
    ensures var pr := CheckVideo.ProgressOf(dopId, AsProgressRecord(p));
      && pr.totalVideos == |p.prompts|
      && (pr.totalVideos == 4 <==> DopUploads.HasBio(p.bio))
      && pr.completedVideos == 0 && pr.pendingRequests == 0
      && pr.progressPercent == 0
      && pr.status == "unknown"
      && pr.estimatedTimeRemaining == "A few minutes"
  {
    NotStarted(dopId, |p.prompts|);
  }

  /** A record with `n` prompts and no other field. */
  lemma NotStarted(dopId: string, n: nat)
    requires n > 0
    ensures var pr := CheckVideo.ProgressOf(dopId, CheckVideo.VideoRecord(Some(n), None, None, ""));
      pr.totalVideos == n && pr.completedVideos == 0 && pr.pendingRequests == 0
      && pr.progressPercent == 0 && pr.status == "unknown"
      && pr.estimatedTimeRemaining == "A few minutes"
  {
  }

  /** A processed record as the progress endpoint parses it. */
  function ProcessedAsProgressRecord(p: VideoProcessor.Persona): (r: CheckVideo.VideoRecord)
    ensures r.prompts == Some(|p.prompts|) && r.videos == Some(|p.videos|)
  {
    CheckVideo.VideoRecord(Some(|p.prompts|), Some(|p.videos|), None,
                           if p.status.Some? then p.status.value else "")
  }

  /** Once the processor writes a record, the progress endpoint shows the status it wrote:
      `Ready!` for a ready record, and a minutes estimate for one still processing. */
  lemma WrittenStatusIsReported(blobs: VideoProcessor.Store, key: string, rounds: nat,
                                provider: VideoProcessor.Provider, dopId: string)
    requires var o := VideoProcessor.Process(blobs, key, rounds, provider); o.Outcome? && o.write.Some?
    ensures var o := VideoProcessor.Process(blobs, key, rounds, provider);
      var pr := CheckVideo.ProgressOf(dopId, ProcessedAsProgressRecord(o.write.value));
      && pr.status == o.result.status
      && (o.result.status == "ready" ==> pr.estimatedTimeRemaining == "Ready!")
      && (o.result.status == "processing" ==>
            pr.estimatedTimeRemaining
              == CheckVideo.EstimatePrefix
                 + Text.IntToString(CheckVideo.MinutesLeft(pr.totalVideos, pr.completedVideos))
                 + " minutes remaining")
  {
  }
}
