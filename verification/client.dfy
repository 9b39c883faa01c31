/**
 * The bookkeeping of the browser client (src/App.tsx) as pure functions:
 * the credit cost of a text, the history entry a generation produces, the
 * zero-padded download file name, the scene list edits, history deletion,
 * the voice search filter, the choice of the error message shown after a
 * failed synthesis request, and the effect of one press of "generate" in
 * single and in scene mode.
 *
 * The synthesis request itself is abstract: each generation is given a
 * `Delivery`, the reply the proxy sent together with the random id, clock
 * reading and object URL the browser would have supplied.
 */
module Client {
  import opened Wrappers
  import opened Json
  import Text

  /** An entry of the generation history; `index` is absent in entries saved before it existed. */
  datatype HistoryItem = HistoryItem(id: string, text: string, voiceName: string, timestamp: int, audioUrl: string, index: Option<nat>)

  /** A voice as the client lists it; `description` is `labels.description` when present. */
  datatype VoiceOption = VoiceOption(voiceId: string, name: string, description: Option<string>)

  // ---------------------------------------------------------------- cost

  /** The one model billed double. */
  const PremiumModel: string := "eleven_v3_alpha"

  /** Credits per character: 2 for the premium model, 1 for every other. */
  function CostPerChar(model: string): (c: nat)
    ensures c == 1 || c == 2
    ensures c == 2 <==> model == PremiumModel
  {
    if model == PremiumModel then 2 else 1
  }

  /** `inputText.length * costPerChar`. */
  function TotalCost(text: string, model: string): (cost: nat)
    ensures |text| <= cost <= 2 * |text|
    ensures cost == 0 <==> text == ""
    ensures model != PremiumModel ==> cost == |text|
    ensures model == PremiumModel ==> cost == 2 * |text|
  {
    |text| * CostPerChar(model)
  }

  /** The summed cost of several texts under one model. */
  function CostSum(texts: seq<string>, model: string): int {
    if texts == [] then 0 else TotalCost(texts[0], model) + CostSum(texts[1..], model)
  }

  // ---------------------------------------------------------------- history entry and file name

  const HistoryTextLimit: nat := 50

  /** The text kept in history: the input, or its first 50 characters followed by "...". */
  function HistoryText(input: string): (r: string)
    ensures |r| <= HistoryTextLimit + 3
    ensures |input| <= HistoryTextLimit ==> r == input
    ensures |input| > HistoryTextLimit ==> |r| == HistoryTextLimit + 3 && r[..HistoryTextLimit] == input[..HistoryTextLimit] && r[HistoryTextLimit..] == "..."
  {
    if |input| > HistoryTextLimit then input[..HistoryTextLimit] + "..." else input
  }

  /**
   * `index.toString().padStart(3, '0')`: at least three digits that read
   * back as the index, with leading zeros only to fill three places.
   */
  function PaddedIndex(index: nat): (r: string)
    ensures |r| >= 3 && Text.IsDigits(r)
    ensures Text.ParseDecimal(r) == index
    ensures |r| == 3 || r[0] != '0'
  {
    var digits := Text.NatToString(index);
    Text.ParseNatToString(index);
    Text.ParseLeadingZeros(if |digits| >= 3 then 0 else 3 - |digits|, digits);
    assert Text.PadStart(digits, 3, '0') == Text.Repeat('0', if |digits| >= 3 then 0 else 3 - |digits|) + digits;
    Text.PadStart(digits, 3, '0')
  }

  /**
   * The download name `<padded index>_<voice name>.mp3`: a prefix of at
   * least three digits, padded with zeros only up to three places, that
   * reads back as the index, then `_`, the voice name and `.mp3`.
   */
  function DownloadName(index: nat, voiceName: string): (r: string)
    ensures |r| >= |voiceName| + 8
    ensures r[|r| - |voiceName| - 5..] == "_" + voiceName + ".mp3"
    ensures var digits := r[..|r| - |voiceName| - 5];
      && |digits| >= 3 && Text.IsDigits(digits) && Text.ParseDecimal(digits) == index
      && (|digits| == 3 || digits[0] != '0')
  {
    var digits := PaddedIndex(index);
    var suffix := "_" + voiceName + ".mp3";
    assert |suffix| == |voiceName| + 5;
    assert (digits + suffix)[..|digits|] == digits;
    assert (digits + suffix)[|digits|..] == suffix;
    digits + suffix
  }

  /**
   * A file handed to the browser's download link, given by the counter value
   * and the voice name its name is made of.
   */
  datatype Download = Download(index: nat, voiceName: string)
  {
    /** The name the file is saved under. */
    function FileName(): string {
      DownloadName(index, voiceName)
    }
  }

  /** `item.index || 0`: the entry's creation number, 0 for entries saved without one. */
  function IndexOrZero(item: HistoryItem): (n: nat)
    ensures item.index.Some? ==> n == item.index.value
    ensures item.index.None? ==> n == 0
  {
    item.index.GetOr(0)
  }

  // ---------------------------------------------------------------- scenes

  /** `[...scenes, '']`. */
  function AddScene(scenes: seq<string>): (r: seq<string>)
    ensures |r| == |scenes| + 1 && r[..|scenes|] == scenes && r[|scenes|] == ""
  {
    scenes + [""]
  }

  /** Where `splice(index, 1)` starts on an array of length `len`: a negative index counts from the end. */
  function SpliceStart(len: nat, index: int): (start: nat)
    ensures start <= len
    ensures 0 <= index <= len ==> start == index
    ensures index < 0 && len + index >= 0 ==> start == len + index
  {
    if index < 0 then (if len + index < 0 then 0 else len + index)
    else if index > len then len
    else index
  }

  /** `removeScene`: with more than one scene, `splice(index, 1)` on a copy; otherwise nothing changes. */
  function RemoveScene(scenes: seq<string>, index: int): (r: seq<string>)
    ensures |scenes| <= 1 ==> r == scenes
    ensures |scenes| > 1 && 0 <= index < |scenes| ==>
      |r| == |scenes| - 1 && forall j :: 0 <= j < |r| ==> r[j] == (if j < index then scenes[j] else scenes[j + 1])
    ensures index >= |scenes| ==> r == scenes
    ensures |scenes| >= 1 ==> |r| >= 1
  {
    if |scenes| > 1 then
      var k := SpliceStart(|scenes|, index);
      if k < |scenes| then scenes[..k] + scenes[k + 1..] else scenes
    else scenes
  }

  /** `updateScene`: a copy with the one entry replaced. */
  function UpdateScene(scenes: seq<string>, index: nat, value: string): (r: seq<string>)
    requires index < |scenes|
    ensures |r| == |scenes| && r[index] == value
    ensures forall j :: 0 <= j < |r| && j != index ==> r[j] == scenes[j]
  {
    scenes[index := value]
  }

  /** `a` keeps a selection of the elements of `b`, in their order. */
  ghost predicate IsSubsequence<T>(a: seq<T>, b: seq<T>) {
    if a == [] then true
    else if b == [] then false
    else (a[0] == b[0] && IsSubsequence(a[1..], b[1..])) || IsSubsequence(a, b[1..])
  }

  /** `scenes.filter(s => s.trim().length > 0)`: the non-blank scenes, in order. */
  function ValidScenes(scenes: seq<string>): (r: seq<string>)
    ensures forall s :: s in r <==> s in scenes && !Text.IsBlank(s)
    ensures forall s :: multiset(r)[s] == if Text.IsBlank(s) then 0 else multiset(scenes)[s]
    ensures IsSubsequence(r, scenes)
  {
    if scenes == [] then []
    else
      var rest := ValidScenes(scenes[1..]);
      assert scenes == [scenes[0]] + scenes[1..];
      if !Text.IsBlank(scenes[0]) then [scenes[0]] + rest else rest
  }

  // ---------------------------------------------------------------- history deletion and voice search

  /** `history.filter(item => item.id !== id)`. */
  function DeleteHistory(history: seq<HistoryItem>, id: string): (r: seq<HistoryItem>)
    ensures forall item :: item in r <==> item in history && item.id != id
    ensures forall item :: multiset(r)[item] == if item.id == id then 0 else multiset(history)[item]
    ensures IsSubsequence(r, history)
  {
    if history == [] then []
    else
      var rest := DeleteHistory(history[1..], id);
      assert history == [history[0]] + history[1..];
      if history[0].id != id then [history[0]] + rest else rest
  }

  /**
   * The search box test: the query, lower-cased, occurs in the lower-cased
   * name or description; the empty query matches every voice.
   */
  function MatchesSearch(v: VoiceOption, query: string): (matches: bool)
    ensures query == "" ==> matches
  {
    Text.ContainsEmpty(Text.Lower(v.name));
    || Text.Contains(Text.Lower(v.name), Text.Lower(query))
    || (v.description.Some? && Text.Contains(Text.Lower(v.description.value), Text.Lower(query)))
  }

  /** The voices offered in the selector for a search query, in catalog order. */
  function FilterVoices(voices: seq<VoiceOption>, query: string): (r: seq<VoiceOption>)
    ensures forall v :: v in r <==> v in voices && MatchesSearch(v, query)
    ensures forall v :: multiset(r)[v] == if MatchesSearch(v, query) then multiset(voices)[v] else 0
    ensures IsSubsequence(r, voices)
  {
    if voices == [] then []
    else
      var rest := FilterVoices(voices[1..], query);
      assert voices == [voices[0]] + voices[1..];
      if MatchesSearch(voices[0], query) then [voices[0]] + rest else rest
  }

  const UnknownVoiceName: string := "Unknown"

  /**
   * `voices.find(v => v.voice_id === selected)?.name || fallback`: the name
   * of the first voice with the selected id, or the fallback when there is
   * no such voice or its name is empty.
   */
  function FoundNameOr(voices: seq<VoiceOption>, selected: string, fallback: string): (name: string)
    ensures name == fallback || name != ""
    ensures (forall v :: v in voices ==> v.voiceId != selected) ==> name == fallback
    ensures forall i :: 0 <= i < |voices| && voices[i].voiceId == selected && (forall j :: 0 <= j < i ==> voices[j].voiceId != selected) ==>
      name == if voices[i].name != "" then voices[i].name else fallback
  {
    if voices == [] then fallback
    else if voices[0].voiceId == selected then (if voices[0].name != "" then voices[0].name else fallback)
    else
      var name := FoundNameOr(voices[1..], selected, fallback);
      assert forall i :: 1 <= i < |voices| ==> voices[i] == voices[1..][i - 1];
      name
  }

  /** `voices.find(v => v.voice_id === selected)?.name || 'Unknown'`. */
  function VoiceNameFor(voices: seq<VoiceOption>, selected: string): (name: string)
    ensures name != ""
    ensures (forall v :: v in voices ==> v.voiceId != selected) ==> name == UnknownVoiceName
    ensures forall i :: 0 <= i < |voices| && voices[i].voiceId == selected && (forall j :: 0 <= j < i ==> voices[j].voiceId != selected) ==>
      name == if voices[i].name != "" then voices[i].name else UnknownVoiceName
  {
    FoundNameOr(voices, selected, UnknownVoiceName)
  }

  // ---------------------------------------------------------------- the reply to a synthesis request

  /** Statuses below 500, which the client accepts as a reply (`validateStatus`). */
  type AcceptedStatus = s: int | s < 500

  /** What became of the POST to /api/tts. */
  datatype TtsReply =
    | Received(status: AcceptedStatus, contentType: string, bodyText: string, parsed: Option<Value>)  // `parsed` is None when JSON.parse throws
    | Thrown(message: string)   // the request threw: a status of 500 or more, or no response

  /** The message of a thrown Error: a string, or the JSON text of a non-string value. */
  datatype ErrorText = Plain(text: string) | Stringified(value: Value)

  const GenericError: string := "Failed to generate speech"
  const RejectedKeyMessage: string := "API Key không hợp lệ hoặc đã hết hạn. Vui lòng kiểm tra lại cài đặt."
  const NotEnoughCreditsMessage: string := "Không đủ điểm để tạo!"
  const FallbackShownError: string := "Lỗi khi tạo giọng nói. Vui lòng thử lại."
  const EmptyTextMessage: string := "Vui lòng nhập văn bản"
  const NoScenesMessage: string := "Vui lòng nhập nội dung cho ít nhất một scene"

  /**
   * The message read from an error reply: `error || detail.message ||
   * (the document if it is a string, else the generic text)`; when parsing
   * fails or the document is `null` (whose `.error` throws), the raw text
   * if non-empty, else the generic text.
   */
  function ReplyErrorValue(bodyText: string, parsed: Option<Value>): (v: Value)
    ensures parsed.None? || parsed == Some(Null) ==> v.Str? && v.s != ""
    ensures parsed.None? || parsed == Some(Null) ==> (bodyText != "" ==> v == Str(bodyText))
  {
    match parsed
    case Some(doc) =>
      if doc == Null then Str(if |bodyText| > 0 then bodyText else GenericError)
      else OrElse(Member(Some(doc), "error"),
             OrElse(Member(Member(Some(doc), "detail"), "message"),
               if doc.Str? then doc else Str(GenericError)))
    case None => Str(if |bodyText| > 0 then bodyText else GenericError)
  }

  /** The Error thrown for an error reply: a fixed text for 401, else the read message (stringified unless a string). */
  function ReplyError(status: int, bodyText: string, parsed: Option<Value>): (e: ErrorText)
    ensures status == 401 ==> e == Plain(RejectedKeyMessage)
    ensures status != 401 && ReplyErrorValue(bodyText, parsed).Str? ==> e == Plain(ReplyErrorValue(bodyText, parsed).s)
    ensures status != 401 && !ReplyErrorValue(bodyText, parsed).Str? ==> e == Stringified(ReplyErrorValue(bodyText, parsed))
  {
    if status == 401 then Plain(RejectedKeyMessage)
    else
      var v := ReplyErrorValue(bodyText, parsed);
      if v.Str? then Plain(v.s) else Stringified(v)
  }

  /** `err.message || fallback`: only an empty message is replaced. */
  function ShownError(e: ErrorText): (shown: ErrorText)
    ensures shown != Plain("")
    ensures e != Plain("") ==> shown == e
  {
    if e == Plain("") then Plain(FallbackShownError) else e
  }

  // ---------------------------------------------------------------- one generation

  /** The reply to one synthesis request and what the browser supplies around it. */
  datatype Delivery = Delivery(reply: TtsReply, id: string, timestamp: int, audioUrl: string)

  /** The history entry for `input` made from delivery `d` as creation number `index`. */
  function Entry(d: Delivery, input: string, voiceName: string, index: nat): (item: HistoryItem)
    ensures item.id == d.id && item.timestamp == d.timestamp && item.audioUrl == d.audioUrl
    ensures item.text == HistoryText(input)
    ensures item.voiceName == voiceName && item.index == Some(index)
  {
    HistoryItem(d.id, HistoryText(input), voiceName, d.timestamp, d.audioUrl, Some(index))
  }

  /** The result of `generateTTS`: null, a thrown Error (noting a 401), or the new entry with its cost and its file if downloaded. */
  datatype GenResult =
    | Skipped
    | Failed(error: ErrorText, authRejected: bool)
    | Done(item: HistoryItem, cost: nat, download: Option<Download>)

  /**
   * `generateTTS(inputText, autoDownload)` with `budget` the credits value
   * the caller captured and `counter` the stored generation count: blank
   * input yields null; a cost above the budget throws before any request;
   * an error reply throws its message; otherwise the entry gets the next
   * counter value as its index.
   */
  function GenerateOutcome(input: string, autoDownload: bool, budget: int, model: string, voiceName: string,
                           d: Delivery, counter: nat): (r: GenResult)
    ensures r.Skipped? <==> Text.IsBlank(input)
    ensures r.Done? ==> r.cost == TotalCost(input, model) <= budget && r.item.index == Some(counter + 1)
  {
    var cost := TotalCost(input, model);
    if Text.IsBlank(input) then Skipped
    else if cost > budget then Failed(Plain(NotEnoughCreditsMessage), false)
    else match d.reply
      case Thrown(message) => Failed(Plain(message), false)
      case Received(status, contentType, bodyText, parsed) =>
        if status >= 400 || contentType == "application/json" then
          Failed(ReplyError(status, bodyText, parsed), status == 401)
        else
          var index := counter + 1;
          Done(Entry(d, input, voiceName, index), cost,
               if autoDownload then Some(Download(index, voiceName)) else None)
  }

  // ---------------------------------------------------------------- one press of "generate"

  /** The client state a generation touches: history (shown and stored), credits, stored counter, downloads, error, mock flag. */
  datatype RunState = RunState(history: seq<HistoryItem>, stored: seq<HistoryItem>, credits: int, counter: nat,
                               downloads: seq<Download>, error: Option<ErrorText>, usingMock: bool)

  /**
   * The bookkeeping after one `generateTTS` call: a thrown Error is shown
   * (the mock flag raised on a 401), a new entry is prepended to the shown
   * and stored history and paid for, and its file, if any, downloaded.
   */
  function Record(st: RunState, g: GenResult): (r: RunState)
    ensures r.counter == st.counter + (if g.Done? then 1 else 0)
    ensures |r.history| == |st.history| + (if g.Done? then 1 else 0)
    ensures r.error.Some? <==> st.error.Some? || g.Failed?
  {
    match g
    case Skipped => st
    case Failed(e, auth) => st.(error := Some(ShownError(e)), usingMock := st.usingMock || auth)
    case Done(item, cost, download) =>
      st.(history := [item] + st.history, stored := [item] + st.history, credits := st.credits - cost,
          counter := st.counter + 1, downloads := if download.Some? then st.downloads + [download.value] else st.downloads)
  }

  /** One call of `generateTTS` and the bookkeeping after it. */
  function Step(st: RunState, input: string, autoDownload: bool, d: Delivery, budget: int, model: string, voiceName: string): (r: RunState)
    ensures Text.IsBlank(input) ==> r == st
    ensures r.counter <= st.counter + 1
  {
    Record(st, GenerateOutcome(input, autoDownload, budget, model, voiceName, d, st.counter))
  }

  /**
   * The scene loop: each scene in turn, each checked against the SAME
   * captured `budget`; the first thrown Error ends the loop.
   */
  function Run(st: RunState, scenes: seq<string>, ds: seq<Delivery>, budget: int, model: string, voiceName: string): (r: RunState)
    requires |ds| == |scenes|
    ensures st.error.Some? ==> r == st
    ensures st.counter <= r.counter <= st.counter + |scenes|
    ensures |r.history| - |st.history| == r.counter - st.counter
    decreases |scenes|
  {
    if scenes == [] || st.error.Some? then st
    else Run(Step(st, scenes[0], true, ds[0], budget, model, voiceName), scenes[1..], ds[1..], budget, model, voiceName)
  }

  /** How many deliveries one press of "generate" consumes. */
  function DeliveriesNeeded(sceneMode: bool, scenes: seq<string>, text: string): nat {
    if !sceneMode then 1
    else |ValidScenes(scenes)|
  }

  /**
   * `handleGenerate`: the error is cleared; scene mode with no non-blank
   * scene and single mode with blank text only set an error; otherwise the
   * scenes (or the text) are generated against the credits value at the
   * start of the handler.
   */
  function Generate(st: RunState, sceneMode: bool, scenes: seq<string>, text: string, ds: seq<Delivery>,
                    model: string, voiceName: string): (r: RunState)
    requires |ds| == DeliveriesNeeded(sceneMode, scenes, text)
    ensures sceneMode && ValidScenes(scenes) == [] ==> r == st.(error := Some(Plain(NoScenesMessage)))
    ensures !sceneMode && Text.IsBlank(text) ==> r == st.(error := Some(Plain(EmptyTextMessage)))
  {
    var start := st.(error := None);
    if sceneMode then
      var valid := ValidScenes(scenes);
      if valid == [] then start.(error := Some(Plain(NoScenesMessage)))
      else Run(start, valid, ds, st.credits, model, voiceName)
    else
      if Text.IsBlank(text) then start.(error := Some(Plain(EmptyTextMessage)))
      else Step(start, text, false, ds[0], st.credits, model, voiceName)
  }

  // ---------------------------------------------------------------- voice preview

  const PreviewGreeting: string := "Xin chào, tôi là "
  const PreviewClosing: string := ". Rất vui được gặp bạn!"
  const UnnamedVoice: string := "giọng đọc này"

  /** The preview sentence: a greeting naming the selected voice, or a generic phrase when it has no name. */
  function PreviewText(voices: seq<VoiceOption>, selected: string): (text: string)
    ensures !Text.IsBlank(text)
  {
    var text := PreviewGreeting + FoundNameOr(voices, selected, UnnamedVoice) + PreviewClosing;
    assert text[0] == 'X';
    text
  }

  /**
   * `handlePreview` once no preview is loading: `generateTTS(previewText)`
   * without download against the current credits. A result is only played,
   * so history, credits and downloads stay as they were while the stored
   * counter moves on; a thrown Error's message is shown as it is (an empty
   * one included) and a 401 raises the mock flag.
   */
  function Preview(st: RunState, text: string, d: Delivery, model: string, voiceName: string): (r: RunState)
    ensures r.history == st.history && r.stored == st.stored && r.credits == st.credits && r.downloads == st.downloads
  {
    match GenerateOutcome(text, false, st.credits, model, voiceName, d, st.counter)
    case Skipped => st
    case Failed(e, auth) => st.(error := Some(e), usingMock := st.usingMock || auth)
    case Done(_, _, _) => st.(counter := st.counter + 1)
  }
}
