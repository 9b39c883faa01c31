/**
 * The browser client (src/App.tsx) as an object whose fields are the React
 * state and the two localStorage entries it writes (`tts_history` and
 * `tts_total_created`); the files handed to the browser's download link are
 * recorded in `downloads`. Each handler is a method proved against the pure
 * definitions of module Client.
 */
module Studio {
  import opened Wrappers
  import Text
  import opened Client
  import ClientProperties

  const InitialCredits: int := 300000
  const InitialModel: string := "eleven_multilingual_v2"

  class App {
    var text: string
    var scenes: seq<string>
    var sceneMode: bool
    var voices: seq<VoiceOption>
    var selectedVoice: string
    var selectedModel: string
    var voiceSearch: string
    var history: seq<HistoryItem>
    var stored: seq<HistoryItem>       // localStorage `tts_history`
    var credits: int
    var totalCreated: nat              // localStorage `tts_total_created`
    var downloads: seq<Download>       // files given to the download link, in order
    var error: Option<ErrorText>
    var usingMock: bool

    /** The part of the state one press of "generate" works on. */
    function State(): RunState
      reads this`history, this`stored, this`credits, this`totalCreated, this`downloads, this`error, this`usingMock
    {
      RunState(history, stored, credits, totalCreated, downloads, error, usingMock)
    }

    /** The voice name `generateTTS` puts in entries and file names. */
    function VoiceName(): string
      reads this`voices, this`selectedVoice
    {
      VoiceNameFor(voices, selectedVoice)
    }

    /**
     * The first render: one empty scene, single mode, 300000 credits, the
     * default model, the mock flag raised, and the history read back from
     * storage when some was saved.
     */
    constructor (savedHistory: Option<seq<HistoryItem>>, savedCounter: nat)
      ensures scenes == [""] && !sceneMode && text == "" && voiceSearch == ""
      ensures voices == [] && selectedVoice == "" && selectedModel == InitialModel
      ensures history == savedHistory.GetOr([]) && stored == history
      ensures credits == InitialCredits && totalCreated == savedCounter
      ensures downloads == [] && error.None? && usingMock
    {
      text := "";
      scenes := [""];
      sceneMode := false;
      voices := [];
      selectedVoice := "";
      selectedModel := InitialModel;
      voiceSearch := "";
      history := savedHistory.GetOr([]);
      stored := savedHistory.GetOr([]);
      credits := InitialCredits;
      totalCreated := savedCounter;
      downloads := [];
      error := None;
      usingMock := true;
    }

    /** `addScene`. */
    method AddScene()
      modifies this`scenes
      ensures scenes == Client.AddScene(old(scenes))
    {
      scenes := scenes + [""];
    }

    /** `removeScene`: splices a copy only when more than one scene exists. */
    method RemoveScene(index: int)
      modifies this`scenes
      ensures scenes == Client.RemoveScene(old(scenes), index)
      ensures |old(scenes)| >= 1 ==> |scenes| >= 1
    {
      if |scenes| > 1 {
        var start := SpliceStart(|scenes|, index);
        if start < |scenes| {
          scenes := scenes[..start] + scenes[start + 1..];
        }
      }
    }

    /** `updateScene`. */
    method UpdateScene(index: nat, value: string)
      requires index < |scenes|
      modifies this`scenes
      ensures scenes == Client.UpdateScene(old(scenes), index, value)
      ensures |scenes| == |old(scenes)|
    {
      scenes := scenes[index := value];
    }

    /** `deleteHistory`: the filtered history is shown and stored. */
    method DeleteHistory(id: string)
      modifies this`history, this`stored
      ensures history == Client.DeleteHistory(old(history), id) && stored == history
    {
      var updated: seq<HistoryItem> := [];
      var i := |history|;
      while i > 0
        invariant 0 <= i <= |history|
        invariant updated == Client.DeleteHistory(history[i..], id)
      {
        i := i - 1;
        assert history[i..][1..] == history[i + 1..];
        if history[i].id != id {
          updated := [history[i]] + updated;
        }
      }
      assert history[0..] == history;
      history := updated;
      stored := updated;
    }

    /** `downloadAudio`: the entry's file, with a missing index read as 0. */
    method DownloadAudio(item: HistoryItem)
      modifies this`downloads
      ensures downloads == old(downloads) + [Download(IndexOrZero(item), item.voiceName)]
    {
      var index := if item.index.Some? then item.index.value else 0;
      downloads := downloads + [Download(index, item.voiceName)];
    }

    /**
     * `generateTTS(input, autoDownload)` with `budget` the credits value the
     * calling handler captured: returns what `GenerateOutcome` describes,
     * raises the mock flag on a 401 reply, bumps the stored counter on
     * success and, when asked, downloads the new file.
     */
    method GenerateTts(input: string, autoDownload: bool, budget: int, d: Delivery) returns (r: GenResult)
      modifies this`totalCreated, this`usingMock, this`downloads
      ensures r == GenerateOutcome(input, autoDownload, budget, selectedModel, VoiceName(), d, old(totalCreated))
      ensures totalCreated == if r.Done? then old(totalCreated) + 1 else old(totalCreated)
      ensures usingMock == (old(usingMock) || (r.Failed? && r.authRejected))
      ensures downloads == if r.Done? && r.download.Some? then old(downloads) + [r.download.value] else old(downloads)
    {
      if Text.IsBlank(input) {
        return Skipped;
      }
      var cost := TotalCost(input, selectedModel);
      if cost > budget {
        return Failed(Plain(NotEnoughCreditsMessage), false);
      }
      match d.reply {
        case Thrown(message) =>
          return Failed(Plain(message), false);
        case Received(status, contentType, bodyText, parsed) =>
          if status >= 400 || contentType == "application/json" {
            if status == 401 {
              usingMock := true;
            }
            return Failed(ReplyError(status, bodyText, parsed), status == 401);
          }
      }
      var voiceName := VoiceNameFor(voices, selectedVoice);
      totalCreated := totalCreated + 1;
      var download: Option<Download> := None;
      if autoDownload {
        download := Some(Download(totalCreated, voiceName));
        downloads := downloads + [download.value];
      }
      return Done(Entry(d, input, voiceName, totalCreated), cost, download);
    }

    /**
     * One pass of the scene loop of `handleGenerate`, with the `catch` that
     * ends the loop: generates `sceneText` with automatic download against
     * `budget`; a result is prepended to the running history, charged to the
     * running credits, and both are written to the state and the history to
     * storage; a thrown Error is shown. The new state is one `Step`.
     */
    method GenerateScene(sceneText: string, d: Delivery, budget: int, currentHistory: seq<HistoryItem>, currentCredits: int)
      returns (nextHistory: seq<HistoryItem>, nextCredits: int)
      requires error.None? && currentHistory == history && currentCredits == credits
      modifies this`history, this`stored, this`credits, this`totalCreated, this`downloads, this`error, this`usingMock
      ensures State() == Step(old(State()), sceneText, true, d, budget, selectedModel, VoiceName())
      ensures nextHistory == history && nextCredits == credits
    {
      ghost var st := State();
      nextHistory, nextCredits := currentHistory, currentCredits;
      var result := GenerateTts(sceneText, true, budget, d);
      assert result == GenerateOutcome(sceneText, true, budget, selectedModel, VoiceName(), d, st.counter);
      match result {
        case Skipped =>
        case Failed(e, _) =>
          error := Some(ShownError(e));
        case Done(item, cost, _) =>
          nextHistory := [item] + currentHistory;
          nextCredits := currentCredits - cost;
          history := nextHistory;
          credits := nextCredits;
          stored := nextHistory;
      }
      assert State() == Record(st, result);
    }

    /**
     * The loop of `handleGenerate` in scene mode over the non-blank scenes
     * with `budget` the credits captured before it, keeping the running
     * history and credits in `currentHistory` and `currentCredits`; the
     * first thrown Error ends the loop. The new state is what `Run`
     * describes.
     */
    method RunScenes(validScenes: seq<string>, ds: seq<Delivery>, budget: int)
      requires |ds| == |validScenes| && error.None?
      modifies this`history, this`stored, this`credits, this`totalCreated, this`downloads, this`error, this`usingMock
      ensures State() == Run(old(State()), validScenes, ds, budget, selectedModel, VoiceName())
    {
      ghost var model := selectedModel;
      ghost var voiceName := VoiceName();
      ghost var target := Run(State(), validScenes, ds, budget, model, voiceName);
      var currentHistory := history;
      var currentCredits := credits;
      for k := 0 to |validScenes|
        invariant error.None? && currentHistory == history && currentCredits == credits
        invariant Run(State(), validScenes[k..], ds[k..], budget, model, voiceName) == target
      {
        ClientProperties.RunAt(State(), validScenes, ds, k, budget, model, voiceName);
        currentHistory, currentCredits := GenerateScene(validScenes[k], ds[k], budget, currentHistory, currentCredits);
        if error.Some? {
          ClientProperties.RunStopped(State(), validScenes[k + 1..], ds[k + 1..], budget, model, voiceName);
          return;
        }
      }
    }

    /**
     * Single mode of `handleGenerate` once the text is known to be non-blank,
     * with the `catch`: generates the text without automatic download against
     * the current credits; a result is prepended to the history, charged and
     * the new history stored; a thrown Error is shown. The new state is one
     * `Step`.
     */
    method GenerateText(d: Delivery)
      requires error.None?
      modifies this`history, this`stored, this`credits, this`totalCreated, this`downloads, this`error, this`usingMock
      ensures State() == Step(old(State()), text, false, d, old(credits), selectedModel, VoiceName())
    {
      ghost var st := State();
      var result := GenerateTts(text, false, credits, d);
      assert result == GenerateOutcome(text, false, st.credits, selectedModel, VoiceName(), d, st.counter);
      match result {
        case Skipped =>
        case Failed(e, _) =>
          error := Some(ShownError(e));
        case Done(item, cost, _) =>
          var updatedHistory := [item] + history;
          history := updatedHistory;
          credits := credits - cost;
          stored := updatedHistory;
      }
      assert State() == Record(st, result);
    }

    /**
     * `handlePreview` once no preview is loading, with the delivery its
     * request receives: the preview sentence for the selected voice is
     * generated against the current credits without download; a thrown
     * Error's message is shown. Playing the result is not modelled.
     */
    method HandlePreview(d: Delivery)
      modifies this`totalCreated, this`usingMock, this`downloads, this`error
      ensures State() == Preview(old(State()), PreviewText(voices, selectedVoice), d, selectedModel, VoiceName())
    {
      ghost var st := State();
      var previewText := PreviewText(voices, selectedVoice);
      var result := GenerateTts(previewText, false, credits, d);
      assert result == GenerateOutcome(previewText, false, st.credits, selectedModel, VoiceName(), d, st.counter);
      match result {
        case Skipped =>
        case Failed(e, auth) =>
          error := Some(e);
          assert State() == st.(error := Some(e), usingMock := st.usingMock || auth);
        case Done(_, _, _) =>
          assert State() == st.(counter := st.counter + 1);
      }
    }

    /**
     * `handleGenerate` with the deliveries its requests receive, in order:
     * the error is cleared, then scene mode runs the loop over the
     * non-blank scenes against the credits captured at the start and single
     * mode generates the text once; the new state is what `Generate`
     * describes.
     */
    method HandleGenerate(ds: seq<Delivery>)
      requires |ds| == DeliveriesNeeded(sceneMode, scenes, text)
      modifies this`history, this`stored, this`credits, this`totalCreated, this`downloads, this`error, this`usingMock
      ensures State() == Generate(old(State()), sceneMode, scenes, text, ds, selectedModel, VoiceName())
    {
      error := None;
      if sceneMode {
        var validScenes := ValidScenes(scenes);
        if |validScenes| == 0 {
          error := Some(Plain(NoScenesMessage));
          return;
        }
        ClientProperties.SceneModeRuns(old(State()), scenes, text, ds, selectedModel, VoiceName());
        RunScenes(validScenes, ds, credits);
      } else {
        if Text.IsBlank(text) {
          error := Some(Plain(EmptyTextMessage));
          return;
        }
        GenerateText(ds[0]);
      }
    }
  }
}
