/**
 * The try-on wizard: step 1 collects a dress URL and a photo, step 2 previews
 * them and submits, step 3 shows the result. The asynchronous submission is
 * modelled as the events that resume it: each network outcome, each firing of
 * a progress interval and each completed file read is a method of its own.
 */
module TryOnApp {
  import opened JsObjects
  import opened Images

  /** The largest photo the drop zone accepts, in bytes: 10 MiB. */
  const MaxPhotoBytes: nat := 10 * 1024 * 1024

  /** One entry of the cosmetic progress table. */
  datatype ProgressStep = ProgressStep(text: string, percent: nat)

  const PreparingLabel := "Preparing your images..."
  const CompleteLabel := "Complete!"

  const ProgressSteps: seq<ProgressStep> := [
    ProgressStep("Downloading dress image...", 20),
    ProgressStep("Processing your photo...", 40),
    ProgressStep("Applying AI magic...", 60),
    ProgressStep("Creating virtual try-on...", 80),
    ProgressStep("Finalizing results...", 95)
  ]

  /** The table's percentages rise strictly and stay below 100. */
  lemma ProgressStepsIncrease()
    ensures forall i, j :: 0 <= i < j < |ProgressSteps| ==> ProgressSteps[i].percent < ProgressSteps[j].percent
    ensures forall i :: 0 <= i < |ProgressSteps| ==> 0 < ProgressSteps[i].percent < 100
  {
  }

  /** A `setInterval` started by a submission: its `currentStep` counter and whether it was cleared. */
  datatype ProgressInterval = ProgressInterval(currentStep: nat, cleared: bool)

  /** One firing of an interval: the interval afterwards and the table entry it shows, if any. */
  function Fire(iv: ProgressInterval): (r: (ProgressInterval, Option<ProgressStep>))
    ensures r.0.cleared == iv.cleared
    ensures r.1.Some? <==> !iv.cleared && iv.currentStep < |ProgressSteps|
    ensures r.1.Some? ==> r.1.value == ProgressSteps[iv.currentStep] && r.0.currentStep == iv.currentStep + 1
    ensures r.1.None? ==> r.0 == iv
  {
    if iv.cleared || iv.currentStep >= |ProgressSteps| then (iv, None)
    else (iv.(currentStep := iv.currentStep + 1), Some(ProgressSteps[iv.currentStep]))
  }

  /** The table entries shown by `n` successive firings of `iv`, in order. */
  function ShownBy(iv: ProgressInterval, n: nat): seq<ProgressStep>
    decreases n
  {
    if n == 0 then []
    else
      var (next, shown) := Fire(iv);
      (if shown.Some? then [shown.value] else []) + ShownBy(next, n - 1)
  }

  function Min(a: int, b: int): int
  {
    if a <= b then a else b
  }

  /** A running interval at counter `c` shows the table from entry `c` on, one entry per firing, and then nothing. */
  lemma {:induction false} ShownByWalksTable(c: nat, n: nat)
    requires c <= |ProgressSteps|
    ensures ShownBy(ProgressInterval(c, false), n) == ProgressSteps[c..Min(c + n, |ProgressSteps|)]
    decreases n
  {
    if n > 0 {
      if c < |ProgressSteps| {
        ShownByWalksTable(c + 1, n - 1);
      } else {
        ShownByWalksTable(c, n - 1);
      }
    }
  }

  /** A fresh interval shows the first `n` entries of the table (all five after five firings). */
  lemma FreshIntervalShowsTable(n: nat)
    ensures ShownBy(ProgressInterval(0, false), n) == ProgressSteps[..Min(n, |ProgressSteps|)]
  {
    ShownByWalksTable(0, n);
  }

  /** A cleared interval never shows anything again. */
  lemma {:induction false} ClearedShowsNothing(iv: ProgressInterval, n: nat)
    requires iv.cleared
    ensures ShownBy(iv, n) == []
  {
    if n > 0 {
      ClearedShowsNothing(iv, n - 1);
    }
  }

  /** Firing never takes the counter past the table's length. */
  lemma FireKeepsCounterInTable(iv: ProgressInterval)
    requires iv.currentStep <= |ProgressSteps|
    ensures Fire(iv).0.currentStep <= |ProgressSteps|
    ensures Fire(iv).0.cleared == iv.cleared
    ensures iv.currentStep == |ProgressSteps| ==> Fire(iv) == (iv, None)
    ensures iv.cleared ==> Fire(iv) == (iv, None)
  {
  }

  /**
   * A `File` delivered by the drop zone. `name` and `size` are accessors of the
   * File prototype; `ownProps` are the object's own enumerable fields, the only
   * ones an object spread copies.
   */
  datatype File = File(name: string, size: nat, ownProps: Record)

  /** What `userImage` holds once set: the dropped `File`, or a plain object built by a spread. */
  datatype UserImage = DroppedFile(file: File) | PlainObject(props: Record)

  const PreviewKey := "preview"

  /** The fields `{...prev}` copies; spreading `null` copies none. */
  function SpreadFields(prev: Option<UserImage>): Record
  {
    match prev
    case None => map[]
    case Some(DroppedFile(f)) => f.ownProps
    case Some(PlainObject(props)) => props
  }

  /** `userImage.preview`, when present. */
  function PreviewOf(u: UserImage): Option<string>
  {
    var props := match u case DroppedFile(f) => f.ownProps case PlainObject(p) => p;
    if PreviewKey in props then Some(props[PreviewKey]) else None
  }

  /** The read-completion update `prev => ({...prev, preview})`, as written. */
  function AttachPreviewAsWritten(prev: Option<UserImage>, preview: string): (u: UserImage)
    ensures u.PlainObject?
    ensures u.props.Keys == SpreadFields(prev).Keys + {PreviewKey}
    ensures PreviewOf(u) == Some(preview)
    ensures forall k :: k in SpreadFields(prev) && k != PreviewKey ==> k in u.props && u.props[k] == SpreadFields(prev)[k]
  {
    PlainObject(Spread(SpreadFields(prev), map[PreviewKey := preview]))
  }

  /** The intended update: a dropped file stays that file and carries the preview; otherwise as written. */
  function AttachPreview(prev: Option<UserImage>, preview: string): (u: UserImage)
    ensures PreviewOf(u) == Some(preview)
    ensures prev.Some? && prev.value.DroppedFile? ==>
              u.DroppedFile? && u.file.name == prev.value.file.name && u.file.size == prev.value.file.size
  {
    match prev
    case Some(DroppedFile(f)) => DroppedFile(f.(ownProps := Spread(f.ownProps, map[PreviewKey := preview])))
    case _ => AttachPreviewAsWritten(prev, preview)
  }

  /** A part of the multipart form. */
  datatype FormPart = FilePart(fileName: string, size: nat) | TextPart(text: string)

  /** `formData.append('user_image', userImage)`: a File goes as a file part, any other object as its string form. */
  function UserImagePart(u: UserImage): (part: FormPart)
    ensures part.FilePart? <==> u.DroppedFile?
    ensures u.DroppedFile? ==> part.fileName == u.file.name && part.size == u.file.size
    ensures u.PlainObject? ==> part == TextPart("[object Object]")
  {
    match u
    case DroppedFile(f) => FilePart(f.name, f.size)
    case PlainObject(_) => TextPart("[object Object]")
  }

  /** The multipart body of `POST /api/tryon`. */
  datatype TryOnRequest = TryOnRequest(dressUrl: string, userImage: FormPart)

  /** As written, once the preview of a dropped photo arrives the upload is no longer a file. */
  lemma PreviewAsWrittenSendsText(f: File, preview: string)
    ensures UserImagePart(AttachPreviewAsWritten(Some(DroppedFile(f)), preview)) == TextPart("[object Object]")
    ensures UserImagePart(AttachPreviewAsWritten(Some(DroppedFile(f)), preview)) != UserImagePart(DroppedFile(f))
  {
  }

  /** With the intended update the upload is still the dropped photo after its preview arrives. */
  lemma PreviewKeepsDroppedFile(f: File, preview: string)
    ensures UserImagePart(AttachPreview(Some(DroppedFile(f)), preview)) == FilePart(f.name, f.size)
    ensures PreviewOf(AttachPreview(Some(DroppedFile(f)), preview)) == Some(preview)
  {
  }

  const DownloadPrefix := "virtual-tryon-"
  const DownloadSuffix := ".png"

  /** The name the result is saved under: `virtual-tryon-<id>.png`. */
  function DownloadFileName(jobId: string): (name: string)
    ensures |name| == |DownloadPrefix| + |jobId| + |DownloadSuffix|
    ensures name[..|DownloadPrefix|] == DownloadPrefix
    ensures name[|DownloadPrefix|..|DownloadPrefix| + |jobId|] == jobId
    ensures name[|name| - |DownloadSuffix|..] == DownloadSuffix
  {
    DownloadPrefix + jobId + DownloadSuffix
  }

  /** The job id a download name was built from, or `None` for any other name. */
  function JobIdOfDownloadName(name: string): Option<string>
  {
    if |name| >= |DownloadPrefix| + |DownloadSuffix|
       && name[..|DownloadPrefix|] == DownloadPrefix
       && name[|name| - |DownloadSuffix|..] == DownloadSuffix
    then Some(name[|DownloadPrefix|..|name| - |DownloadSuffix|])
    else None
  }

  lemma DownloadNameRoundTrip(jobId: string)
    ensures JobIdOfDownloadName(DownloadFileName(jobId)) == Some(jobId)
  {
  }

  /** Distinct jobs download under distinct names. */
  lemma DownloadNameInjective(a: string, b: string)
    requires DownloadFileName(a) == DownloadFileName(b)
    ensures a == b
  {
    DownloadNameRoundTrip(a);
    DownloadNameRoundTrip(b);
  }

  /** The anchor `downloadImage` clicks: its target and its file name. */
  datatype Download = Download(href: string, fileName: string)

  datatype DropOutcome = NoFile | TooLarge | Accepted

  /** Where the asynchronous `handleSubmit` stands. */
  datatype Submission =
    | Idle
      /** The job request is in flight; `interval` is the progress interval it started. */
    | AwaitingJob(interval: nat)
      /** The job record arrived; the image request for it is in flight. */
    | AwaitingImages(job: Record)

  /** The seven `useState` fields of the component. */
  datatype WizardState = WizardState(
    step: int,
    dressUrl: string,
    userImage: Option<UserImage>,
    isProcessing: bool,
    processingStep: string,
    result: Option<Record>,
    progress: int)

  const InitialState := WizardState(1, "", None, false, "", None, 0)

  class TryOnWizard {
    var step: int
    var dressUrl: string
    var userImage: Option<UserImage>
    var isProcessing: bool
    var processingStep: string
    var result: Option<Record>
    var progress: int
    /** Every progress interval a submission has started, in start order. */
    var intervals: seq<ProgressInterval>
    var submission: Submission
    /** File reads started by accepted drops whose completion has not yet arrived. */
    var pendingPreviews: nat

    function State(): WizardState
      reads this
    {
      WizardState(step, dressUrl, userImage, isProcessing, processingStep, result, progress)
    }

    ghost predicate Valid()
      reads this
    {
      && 1 <= step <= 3
      && (step == 3 ==> result.Some? && submission.Idle?)
      && (isProcessing <==> !submission.Idle?)
      && (submission.AwaitingJob? ==>
            submission.interval < |intervals| && !intervals[submission.interval].cleared)
      && (forall i :: 0 <= i < |intervals| ==> intervals[i].currentStep <= |ProgressSteps|)
      && 0 <= progress <= 100
    }

    constructor ()
      ensures Valid()
      ensures State() == InitialState
      ensures intervals == [] && submission == Idle && pendingPreviews == 0
    {
      step, dressUrl, userImage, isProcessing := 1, "", None, false;
      processingStep, result, progress := "", None, 0;
      intervals, submission, pendingPreviews := [], Idle, 0;
    }

    /** Typing in the dress URL field. */
    method SetDressUrl(url: string)
      requires Valid()
      modifies this
      ensures Valid()
      ensures State() == old(State()).(dressUrl := url)
      ensures intervals == old(intervals) && submission == old(submission) && pendingPreviews == old(pendingPreviews)
    {
      dressUrl := url;
    }

    /** The drop zone's callback: only the first accepted file is considered, and only up to 10 MiB. */
    method Drop(accepted: seq<File>) returns (outcome: DropOutcome)
      requires Valid()
      modifies this
      ensures Valid()
      ensures outcome == NoFile <==> accepted == []
      ensures outcome == TooLarge <==> accepted != [] && accepted[0].size > MaxPhotoBytes
      ensures outcome == Accepted ==> State() == old(State()).(userImage := Some(DroppedFile(accepted[0])))
      ensures outcome == Accepted ==> pendingPreviews == old(pendingPreviews) + 1
      ensures outcome != Accepted ==> State() == old(State()) && pendingPreviews == old(pendingPreviews)
      ensures intervals == old(intervals) && submission == old(submission)
    {
      if accepted == [] {
        return NoFile;
      }
      var file := accepted[0];
      if file.size > MaxPhotoBytes {
        return TooLarge;
      }
      userImage := Some(DroppedFile(file));
      pendingPreviews := pendingPreviews + 1;
      outcome := Accepted;
    }

    /** A file read finished with the data URL `preview` and attaches it to whatever `userImage` now is. */
    method PreviewLoaded(preview: string)
      requires Valid() && pendingPreviews > 0
      modifies this
      ensures Valid()
      ensures State() == old(State()).(userImage := Some(AttachPreview(old(userImage), preview)))
      ensures pendingPreviews == old(pendingPreviews) - 1
      ensures intervals == old(intervals) && submission == old(submission)
    {
      userImage := Some(AttachPreview(userImage, preview));
      pendingPreviews := pendingPreviews - 1;
    }

    /** "Continue to Preview", which is disabled unless both a URL and a photo are present. */
    method Continue() returns (moved: bool)
      requires Valid() && step == 1
      modifies this
      ensures Valid()
      ensures moved <==> dressUrl != "" && userImage.Some?
      ensures State() == if moved then old(State()).(step := 2) else old(State())
      ensures intervals == old(intervals) && submission == old(submission) && pendingPreviews == old(pendingPreviews)
    {
      moved := dressUrl != "" && userImage.Some?;
      if moved {
        step := 2;
      }
    }

    /** "Edit Details": back to step 1, nothing else changes. */
    method EditDetails()
      requires Valid() && step == 2
      modifies this
      ensures Valid()
      ensures State() == old(State()).(step := 1)
      ensures intervals == old(intervals) && submission == old(submission) && pendingPreviews == old(pendingPreviews)
    {
      step := 1;
    }

    /**
     * "Create Virtual Try-On" (disabled while processing). Without a URL or a
     * photo nothing happens; otherwise the job request is sent and a new
     * progress interval starts.
     */
    method Submit() returns (request: Option<TryOnRequest>)
      requires Valid() && step == 2 && !isProcessing
      modifies this
      ensures Valid()
      ensures request.None? <==> old(dressUrl) == "" || old(userImage).None?
      ensures request.None? ==>
                State() == old(State()) && intervals == old(intervals) && submission == old(submission)
      ensures request.Some? ==>
                && userImage.Some?
                && request.value == TryOnRequest(dressUrl, UserImagePart(userImage.value))
                && State() == old(State()).(isProcessing := true, progress := 0, processingStep := PreparingLabel)
                && intervals == old(intervals) + [ProgressInterval(0, false)]
                && submission == AwaitingJob(|old(intervals)|)
      ensures pendingPreviews == old(pendingPreviews)
    {
      if dressUrl == "" || userImage.None? {
        return None;
      }
      isProcessing, progress, processingStep := true, 0, PreparingLabel;
      submission := AwaitingJob(|intervals|);
      intervals := intervals + [ProgressInterval(0, false)];
      request := Some(TryOnRequest(dressUrl, UserImagePart(userImage.value)));
    }

    /**
     * A firing of interval `k`. Intervals of failed submissions were never
     * cleared, so they go on firing, and overwrite the progress shown, until
     * they reach the end of the table.
     */
    method ProgressTick(k: nat)
      requires Valid() && k < |intervals|
      modifies this
      ensures Valid()
      ensures intervals == old(intervals)[k := Fire(old(intervals[k])).0]
      ensures Fire(old(intervals[k])).1.None? ==> State() == old(State())
      ensures Fire(old(intervals[k])).1.Some? ==>
                var shown := Fire(old(intervals[k])).1.value;
                State() == old(State()).(processingStep := shown.text, progress := shown.percent)
      ensures submission == old(submission) && pendingPreviews == old(pendingPreviews)
    {
      var iv := intervals[k];
      if !iv.cleared && iv.currentStep < |ProgressSteps| {
        processingStep := ProgressSteps[iv.currentStep].text;
        progress := ProgressSteps[iv.currentStep].percent;
        intervals := intervals[k := iv.(currentStep := iv.currentStep + 1)];
      }
    }

    /**
     * The job request threw, answered not ok, or its body was not JSON: the
     * `finally` block settles the submission, and the interval keeps running.
     */
    method JobFailed()
      requires Valid() && submission.AwaitingJob?
      modifies this
      ensures Valid()
      ensures State() == old(State()).(isProcessing := false, processingStep := "", progress := 0)
      ensures intervals == old(intervals) && submission == Idle
      ensures pendingPreviews == old(pendingPreviews)
    {
      isProcessing, processingStep, progress := false, "", 0;
      submission := Idle;
    }

    /**
     * The job request answered ok with `job`: the interval is cleared, the
     * progress shows 100% "Complete!", and the image request for the job's id,
     * returned here, is sent.
     */
    method JobAccepted(job: Record) returns (imageJobId: string)
      requires Valid() && submission.AwaitingJob?
      modifies this
      ensures Valid()
      ensures imageJobId == Field(job, "id")
      ensures intervals == old(intervals)[old(submission).interval := old(intervals)[old(submission).interval].(cleared := true)]
      ensures State() == old(State()).(progress := 100, processingStep := CompleteLabel)
      ensures submission == AwaitingImages(job)
      ensures pendingPreviews == old(pendingPreviews)
    {
      var k := submission.interval;
      intervals := intervals[k := intervals[k].(cleared := true)];
      progress, processingStep := 100, CompleteLabel;
      submission := AwaitingImages(job);
      imageJobId := Field(job, "id");
    }

    /**
     * The image request produced the JSON `body`, whatever its HTTP status: the
     * result is stored, the wizard moves to step 3, and the `finally` block
     * immediately replaces 100% "Complete!" with 0 and the empty label.
     */
    method ImagesArrived(body: Record)
      requires Valid() && submission.AwaitingImages?
      modifies this
      ensures Valid()
      ensures State() == old(State()).(
                result := Some(WithImages(old(submission).job, body)), step := 3,
                isProcessing := false, processingStep := "", progress := 0)
      ensures intervals == old(intervals) && submission == Idle
      ensures pendingPreviews == old(pendingPreviews)
    {
      result := Some(WithImages(submission.job, body));
      step := 3;
      isProcessing, processingStep, progress := false, "", 0;
      submission := Idle;
    }

    /** The image request threw or its body was not JSON: the submission settles in step 2 without a result. */
    method ImagesFailed()
      requires Valid() && submission.AwaitingImages?
      modifies this
      ensures Valid()
      ensures State() == old(State()).(isProcessing := false, processingStep := "", progress := 0)
      ensures intervals == old(intervals) && submission == Idle
      ensures pendingPreviews == old(pendingPreviews)
    {
      isProcessing, processingStep, progress := false, "", 0;
      submission := Idle;
    }

    /** "Download Result": nothing without a result, otherwise the generated image as `virtual-tryon-<id>.png`. */
    method DownloadImage() returns (download: Option<Download>)
      requires Valid()
      ensures result.None? ==> download.None?
      ensures result.Some? ==>
                && download.Some?
                && download.value.href == Field(result.value, GeneratedImageKey)
                && JobIdOfDownloadName(download.value.fileName) == Some(Field(result.value, "id"))
    {
      if result.None? {
        return None;
      }
      var r := result.value;
      download := Some(Download(Field(r, GeneratedImageKey), DownloadFileName(Field(r, "id"))));
      DownloadNameRoundTrip(Field(r, "id"));
    }

    /** "Try Another Dress": every state field back to its initial value; running intervals are not stopped. */
    method Reset()
      requires Valid() && step == 3
      modifies this
      ensures Valid()
      ensures State() == InitialState
      ensures intervals == old(intervals) && submission == old(submission) && pendingPreviews == old(pendingPreviews)
    {
      step, dressUrl, userImage, result := 1, "", None, None;
      isProcessing, processingStep, progress := false, "", 0;
    }
  }
}
