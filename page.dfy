/**
 * The page of app.js as an object: the button, the three status areas, the
 * status and error texts, the progress value and the list of download
 * links are fields; `updateUI`, `loadFFmpeg`, `cutVideo`, the `change`
 * listener and the `click` listener are methods. Every `await` is one
 * sequential step; the engine is the oracle of module Engine and the
 * duration probe's outcome is the argument `probe` of `CutVideo`.
 */
module App {
  import opened Wrappers
  import opened Text
  import opened Planner
  import opened Naming
  import opened Ui
  import opened Engine
  import opened Job

  // The texts shown to the user are opaque here.
  const LoadingEngineMessage: string := "loading engine"
  const ReadyMessage: string := "ready"
  const LoadFailedMessage: string := "engine failed to load"
  const ReadingDurationMessage: string := "reading duration"
  const StagingMessage: string := "staging input"
  const CuttingMessage: string := "cutting"
  const CutFailedMessage: string := "cut failed"

  class Page {
    const engine: FFmpeg
    var fileSelected: bool
    var buttonDisabled: bool
    var progressHidden: bool
    var downloadHidden: bool
    var errorHidden: bool
    var statusText: string
    var progressValue: int
    var errorText: string
    var clipList: seq<Link>

    /** The areas currently visible. */
    ghost function Shown(): Regions
      reads this
    {
      Regions(!progressHidden, !downloadHidden, !errorHidden)
    }

    /**
     * At most one status area is visible, a visible error area shows the
     * current status text, and the links are those of clips 1, 2, ... in order.
     */
    ghost predicate UiValid()
      reads this
    {
      && VisibleCount(Shown()) <= 1
      && (!errorHidden ==> errorText == statusText)
      && clipList == Links(|clipList|)
    }

    /** In addition, once the engine has failed to load the button stays disabled. */
    ghost predicate Valid()
      reads this, engine
    {
      UiValid() && (Event(Call.Load, false) in engine.log ==> buttonDisabled)
    }

    constructor (engine: FFmpeg, buttonDisabled: bool)
      ensures this.engine == engine && this.buttonDisabled == buttonDisabled
      ensures !fileSelected && clipList == [] && VisibleCount(Shown()) == 0
      ensures UiValid()
      ensures Event(Call.Load, false) !in engine.log ==> Valid()
    {
      this.engine := engine;
      this.buttonDisabled := buttonDisabled;
      fileSelected := false;
      progressHidden, downloadHidden, errorHidden := true, true, true;
      statusText, errorText := "", "";
      progressValue := 0;
      clipList := [];
    }

    /** `updateUI(status, message, progress)`. */
    method UpdateUI(status: Status, message: string, progress: int)
      modifies this`statusText, this`progressValue, this`progressHidden,
               this`downloadHidden, this`errorHidden, this`errorText
      ensures Shown() == Project(status)
      ensures statusText == message && progressValue == progress
      ensures errorText == if status == Error then message else old(errorText)
      ensures clipList == Links(|clipList|) ==> UiValid()
    {
      statusText := message;
      progressValue := progress;
      progressHidden, downloadHidden, errorHidden := true, true, true;
      if status == Loading || status == Ready {
        progressHidden := false;
      } else if status == Error {
        errorHidden := false;
        errorText := message;
      } else if status == Done {
        downloadHidden := false;
      }
    }

    /**
     * `loadFFmpeg`: on success the button is enabled and the page reports
     * ready at 100; on failure the button is disabled and the error is shown.
     */
    method LoadFFmpeg()
      requires UiValid()
      modifies this, engine
      ensures |engine.log| == |old(engine.log)| + 1 && engine.log[..|old(engine.log)|] == old(engine.log)
      ensures engine.log[|engine.log| - 1].call == Call.Load
      ensures engine.log[|engine.log| - 1].ok ==>
        !buttonDisabled && Shown() == Project(Ready) && statusText == ReadyMessage && progressValue == 100
      ensures !engine.log[|engine.log| - 1].ok ==>
        buttonDisabled && Shown() == Project(Error) && statusText == LoadFailedMessage && errorText == LoadFailedMessage
      ensures fileSelected == old(fileSelected) && clipList == old(clipList)
      ensures UiValid()
      ensures Event(Call.Load, false) !in old(engine.log) ==> Valid()
    {
      UpdateUI(Loading, LoadingEngineMessage, 0);
      var loaded := engine.Load();
      if loaded {
        buttonDisabled := false;
        UpdateUI(Ready, ReadyMessage, 100);
      } else {
        buttonDisabled := true;
        UpdateUI(Error, LoadFailedMessage, 0);
      }
    }

    /**
     * The read loop of `cutVideo`: reads clips 1..numClipes in ascending
     * order, appending one link per successful read, and stops at the first
     * failed read. Links appended before a failure stay in the list. The
     * ghost result `events` is what the loop added to the engine's log.
     */
    method ReadClips(numClipes: int) returns (allRead: bool, ghost events: seq<Event>)
      requires clipList == []
      modifies this`clipList, engine
      ensures engine.log == old(engine.log) + events
      ensures StopsAtFirstFailure(ReadCalls(numClipes), events)
      ensures allRead <==> Completed(ReadCalls(numClipes), events)
      ensures clipList == Links(ReadsDone(events))
    {
      ghost var planned := ReadCalls(numClipes);
      events := [];
      var i := 0;
      while i < numClipes
        invariant 0 <= i <= |planned|
        invariant events == OkEvents(planned[..i])
        invariant engine.log == old(engine.log) + events
        invariant clipList == Links(i)
      {
        var clipName := ClipName(i + 1);
        var ok := engine.ReadFile(clipName);
        if !ok {
          events := events + [Event(planned[i], false)];
          ReadLoopFails(planned, i);
          return false, events;
        }
        clipList := clipList + [Link(clipName, DownloadName(i + 1))];
        LinksGrow(i);
        OkEventsGrow(planned, i);
        events := events + [Event(planned[i], true)];
        i := i + 1;
      }
      assert planned[..i] == planned;
      ReadLoopCompletes(planned);
      return true, events;
    }

    /**
     * Steps 2 to 4 of `cutVideo`: stage the input, run the command, read the
     * clips back, stopping at the first failure.
     */
    method StageCutRead(command: seq<string>, numClipes: int) returns (allOk: bool, ghost events: seq<Event>)
      requires clipList == []
      modifies this`statusText, this`progressValue, this`progressHidden,
               this`downloadHidden, this`errorHidden, this`errorText, this`clipList, engine
      ensures engine.log == old(engine.log) + events
      ensures StopsAtFirstFailure(StageCutCalls(command, numClipes), events)
      ensures allOk <==> Completed(StageCutCalls(command, numClipes), events)
      ensures clipList == Links(ReadsDone(events))
      ensures errorText == old(errorText)
    {
      UpdateUI(Loading, StagingMessage, 0);
      var written := engine.WriteFile(InputName);
      if !written {
        events := [Event(WriteFile(InputName), false)];
        StagingFailed(command, numClipes, events);
        return false, events;
      }
      UpdateUI(Loading, CuttingMessage, 0);
      var executed := engine.Exec(command);
      if !executed {
        events := [Event(WriteFile(InputName), true), Event(Exec(command), false)];
        ExecFailed(command, numClipes, events);
        return false, events;
      }
      events := [Event(WriteFile(InputName), true), Event(Exec(command), true)];
      assert engine.log == old(engine.log) + events;
      ghost var readEvents;
      allOk, readEvents := ReadClips(numClipes);
      assert (old(engine.log) + events) + readEvents == old(engine.log) + (events + readEvents);
      events := events + readEvents;
      ReadLoopRan(command, numClipes, readEvents);
    }

    /**
     * The start of the `try` block of `cutVideo`: clear the links, report
     * that the duration is being read, disable the button.
     */
    method BeginJob()
      modifies this`clipList, this`statusText, this`progressValue, this`progressHidden,
               this`downloadHidden, this`errorHidden, this`errorText, this`buttonDisabled
      ensures clipList == [] && buttonDisabled
      ensures Shown() == Project(Loading) && statusText == ReadingDurationMessage
      ensures errorText == old(errorText)
    {
      clipList := [];
      UpdateUI(Loading, ReadingDurationMessage, 0);
      buttonDisabled := true;
    }

    /**
     * The `try` block of `cutVideo` up to `updateUI('done')`: begin, then
     * plan, stage, cut and read. `succeeded` tells whether the block ran to
     * its end; `body` is what it added to the engine's log.
     */
    method RunJob(probe: Option<real>) returns (succeeded: bool, ghost body: seq<Event>)
      modifies this, engine
      ensures engine.log == old(engine.log) + body
      ensures StopsAtFirstFailure(Planned(probe), body)
      ensures succeeded <==> Succeeded(probe, body)
      ensures clipList == Links(ReadsDone(body))
      ensures buttonDisabled && fileSelected == old(fileSelected) && errorText == old(errorText)
    {
      BeginJob();
      if probe.None? {
        ProbeFailed();
        return false, [];
      }
      var numClipes, command := PlanCommand(probe.value);
      succeeded, body := StageCutRead(command, numClipes);
      PlannedRun(probe.value, command, numClipes, body, succeeded);
    }

    /**
     * The end of `cutVideo`: `updateUI('done')` or, in the `catch` block,
     * `updateUI('error', ...)`; then the `finally` block enables the button
     * and asks once for the staged input to be deleted; the page ignores
     * the answer `deleted`, which is returned only to name the logged event.
     */
    method Conclude(succeeded: bool) returns (ghost deleted: bool)
      requires clipList == Links(|clipList|)
      modifies this`statusText, this`progressValue, this`progressHidden,
               this`downloadHidden, this`errorHidden, this`errorText, this`buttonDisabled, engine
      ensures UiValid()
      ensures Shown() == Project(if succeeded then Done else Error)
      ensures statusText == (if succeeded then "" else CutFailedMessage)
      ensures !buttonDisabled
      ensures engine.log == old(engine.log) + [Event(DeleteFile(InputName), deleted)]
    {
      if succeeded {
        UpdateUI(Done, "", 0);
      } else {
        UpdateUI(Error, CutFailedMessage, 0);
      }
      buttonDisabled := false;
      var ok := engine.DeleteFile(InputName);
      deleted := ok;
    }

    /**
     * `cutVideo`. With no file selected nothing changes. Otherwise the
     * engine is asked for the planned calls in order until one fails (the
     * ghost result `body`), then once to delete the staged input (answered
     * by `deleted`); the page reports `done` exactly when every planned call
     * succeeded and `error` otherwise, whatever the deletion answers, and
     * the button is enabled again.
     */
    method CutVideo(probe: Option<real>) returns (ghost body: seq<Event>, ghost deleted: bool)
      requires UiValid()
      modifies this, engine
      ensures UiValid()
      ensures !old(fileSelected) ==> unchanged(this) && unchanged(engine)
      ensures old(fileSelected) ==>
        && engine.log == old(engine.log) + body + [Event(DeleteFile(InputName), deleted)]
        && StopsAtFirstFailure(Planned(probe), body)
        && Shown() == Project(if Succeeded(probe, body) then Done else Error)
        && statusText == (if Succeeded(probe, body) then "" else CutFailedMessage)
        && clipList == Links(ReadsDone(body))
        && !buttonDisabled && fileSelected
    {
      if !fileSelected {
        return [], false;
      }
      var succeeded;
      succeeded, body := RunJob(probe);
      deleted := Conclude(succeeded);
    }

    /**
     * The `change` listener: it records whether a file is selected, can
     * disable the button but never enables a disabled one, and hides the
     * download and error areas.
     */
    method OnFileChange(hasFiles: bool)
      requires Valid()
      modifies this`fileSelected, this`buttonDisabled, this`downloadHidden, this`errorHidden
      ensures Valid()
      ensures fileSelected == hasFiles
      ensures buttonDisabled == (old(buttonDisabled) || !hasFiles)
      ensures downloadHidden && errorHidden && progressHidden == old(progressHidden)
    {
      fileSelected := hasFiles;
      if !buttonDisabled {
        buttonDisabled := !hasFiles;
      }
      downloadHidden := true;
      errorHidden := true;
    }

    /**
     * A click reaches `cutVideo` only while the button is enabled; then it
     * does what `CutVideo` promises (with no file selected, nothing).
     */
    method Click(probe: Option<real>) returns (ghost body: seq<Event>, ghost deleted: bool)
      requires Valid()
      modifies this, engine
      ensures Valid()
      ensures old(buttonDisabled) || !old(fileSelected) ==> unchanged(this) && unchanged(engine)
      ensures !old(buttonDisabled) && old(fileSelected) ==>
        && engine.log == old(engine.log) + body + [Event(DeleteFile(InputName), deleted)]
        && StopsAtFirstFailure(Planned(probe), body)
        && Shown() == Project(if Succeeded(probe, body) then Done else Error)
        && statusText == (if Succeeded(probe, body) then "" else CutFailedMessage)
        && clipList == Links(ReadsDone(body))
        && !buttonDisabled && fileSelected
    {
      body, deleted := [], false;
      if !buttonDisabled {
        body, deleted := CutVideo(probe);
        if fileSelected {
          DeleteOnce(probe, body, deleted);
          assert Event(Call.Load, false) !in body + [Event(DeleteFile(InputName), deleted)];
        }
      }
    }
  }
}
