/**
 * What the client's bookkeeping guarantees, proved about the functions of
 * module Client: file names never collide, truncation is stable, scene and
 * history edits touch only what they name, the search is case-blind on the
 * query, and a scene run leaves history, credits, counter and downloads in a
 * state determined by the scenes it got through, checking every scene
 * against the credits captured when the handler began.
 */
module ClientProperties {
  import opened Wrappers
  import opened Json
  import Text
  import opened Client

  // ---------------------------------------------------------------- file names and history text

  /** Two generations with different counter values never produce the same file name for one voice. */
  lemma {:induction false} DownloadNameInjective(i: nat, j: nat, voiceName: string)
    requires DownloadName(i, voiceName) == DownloadName(j, voiceName)
    ensures i == j
  {
    SuffixCancel(PaddedIndex(i), PaddedIndex(j), "_" + voiceName + ".mp3");
  }

  /** Equal sequences with a common suffix have equal prefixes. */
  lemma SuffixCancel<T>(a: seq<T>, b: seq<T>, t: seq<T>)
    requires a + t == b + t
    ensures a == b
  {
    assert a == (a + t)[..|a|];
    assert b == (b + t)[..|b|];
  }

  /** The values `f(counter + 1)`, ..., `f(counter + count)`, in order. */
  function Numbered<T>(f: nat -> T, counter: nat, count: nat): (s: seq<T>)
    ensures |s| == count
    decreases count
  {
    if count == 0 then [] else [f(counter + 1)] + Numbered(f, counter + 1, count - 1)
  }

  /** The `j`-th of those values is the one for `counter + 1 + j`. */
  lemma {:induction false} NumberedAt<T>(f: nat -> T, counter: nat, count: nat, j: nat)
    requires j < count
    ensures Numbered(f, counter, count)[j] == f(counter + 1 + j)
    decreases j
  {
    if j > 0 {
      NumberedAt(f, counter + 1, count - 1, j - 1);
    }
  }

  /** The files of `count` consecutive generations after counter value `counter`. */
  function Downloads(counter: nat, count: nat, voiceName: string): seq<Download> {
    Numbered(i => Download(i, voiceName), counter, count)
  }

  /** The `j`-th of those files is the one for counter value `counter + 1 + j`. */
  lemma DownloadsAt(counter: nat, count: nat, voiceName: string, j: nat)
    requires j < count
    ensures Downloads(counter, count, voiceName)[j] == Download(counter + 1 + j, voiceName)
  {
    NumberedAt(i => Download(i, voiceName), counter, count, j);
  }

  /** The files of one run are saved under pairwise distinct names. */
  lemma DownloadNamesDistinct(counter: nat, count: nat, voiceName: string)
    ensures var files := Downloads(counter, count, voiceName);
      forall i, j :: 0 <= i < j < count ==> files[i].FileName() != files[j].FileName()
  {
    var files := Downloads(counter, count, voiceName);
    forall i, j | 0 <= i < j < count ensures files[i].FileName() != files[j].FileName() {
      DownloadsAt(counter, count, voiceName, i);
      DownloadsAt(counter, count, voiceName, j);
      FileNamesDiffer(files[i], files[j]);
    }
  }

  /** Two files for one voice with different counter values have different names. */
  lemma FileNamesDiffer(a: Download, b: Download)
    requires a.voiceName == b.voiceName && a.index != b.index
    ensures a.FileName() != b.FileName()
  {
    if a.FileName() == b.FileName() {
      DownloadNameInjective(a.index, b.index, a.voiceName);
    }
  }

  /** Truncating a history text a second time changes nothing. */
  lemma HistoryTextIdempotent(input: string)
    ensures HistoryText(HistoryText(input)) == HistoryText(input)
  {
    if |input| > HistoryTextLimit {
      var r := HistoryText(input);
      assert r[..HistoryTextLimit] == input[..HistoryTextLimit];
    }
  }

  // ---------------------------------------------------------------- scenes and history

  /** A negative index counts from the end of the list; one below minus the length removes the first scene. */
  lemma RemoveSceneNegativeIndex(scenes: seq<string>, index: int)
    requires |scenes| > 1 && index < 0
    ensures var k := if |scenes| + index >= 0 then |scenes| + index else 0;
      RemoveScene(scenes, index) == scenes[..k] + scenes[k + 1..]
  {
  }

  /** Deleting an id no entry has leaves the history as it was. */
  lemma {:induction false} DeleteAbsentId(history: seq<HistoryItem>, id: string)
    requires forall item :: item in history ==> item.id != id
    ensures DeleteHistory(history, id) == history
  {
    if history != [] {
      DeleteAbsentId(history[1..], id);
    }
  }

  /** Deleting by id twice is deleting once. */
  lemma DeleteHistoryIdempotent(history: seq<HistoryItem>, id: string)
    ensures DeleteHistory(DeleteHistory(history, id), id) == DeleteHistory(history, id)
  {
    DeleteAbsentId(DeleteHistory(history, id), id);
  }

  /** Deleting the entry just prepended, when its id was fresh, restores the earlier history. */
  lemma DeleteUndoesPrepend(item: HistoryItem, history: seq<HistoryItem>)
    requires forall old_item :: old_item in history ==> old_item.id != item.id
    ensures DeleteHistory([item] + history, item.id) == history
  {
    assert ([item] + history)[1..] == history;
    DeleteAbsentId(history, item.id);
  }

  // ---------------------------------------------------------------- voice search

  /** An empty search offers every voice, in order. */
  lemma {:induction false} EmptySearchKeepsAll(voices: seq<VoiceOption>)
    ensures FilterVoices(voices, "") == voices
  {
    if voices != [] {
      Text.ContainsEmpty(Text.Lower(voices[0].name));
      assert Text.Lower("") == "";
      EmptySearchKeepsAll(voices[1..]);
    }
  }

  /** The query's case does not matter: searching its lower-cased form offers the same voices. */
  lemma {:induction false} SearchIgnoresQueryCase(voices: seq<VoiceOption>, query: string)
    ensures FilterVoices(voices, Text.Lower(query)) == FilterVoices(voices, query)
  {
    assert Text.Lower(Text.Lower(query)) == Text.Lower(query);
    if voices != [] {
      SearchIgnoresQueryCase(voices[1..], query);
    }
  }

  // ---------------------------------------------------------------- error messages

  /** A 401 reply always shows the fixed credential message, whatever its body. */
  lemma RejectedKeyMessageFixed(bodyText: string, parsed: Option<Value>)
    ensures ReplyError(401, bodyText, parsed) == Plain(RejectedKeyMessage)
  {
  }

  /** An unparsable reply shows its raw text, or the generic text when it is empty; never an empty message. */
  lemma UnparsableReplyShowsText(status: int, bodyText: string)
    requires status != 401
    ensures ReplyError(status, bodyText, None) == Plain(if bodyText != "" then bodyText else GenericError)
    ensures ShownError(ReplyError(status, bodyText, None)) == ReplyError(status, bodyText, None)
  {
  }

  /**
   * The order in which the message of an error reply is chosen: the
   * document's truthy `error`, then its truthy `detail.message`, then the
   * document itself when it is a string, then the generic text. An
   * unparsable reply or a `null` document gives the raw text, or the
   * generic text when that is empty.
   */
  lemma ReplyMessagePrecedence(bodyText: string, doc: Value)
    ensures ReplyErrorValue(bodyText, None) == Str(if bodyText != "" then bodyText else GenericError)
    ensures ReplyErrorValue(bodyText, Some(Null)) == ReplyErrorValue(bodyText, None)
    ensures var e := Member(Some(doc), "error");
      var m := Member(Member(Some(doc), "detail"), "message");
      doc != Null ==>
      && (e.Some? && Truthy(e.value) ==> ReplyErrorValue(bodyText, Some(doc)) == e.value)
      && (!(e.Some? && Truthy(e.value)) && m.Some? && Truthy(m.value) ==> ReplyErrorValue(bodyText, Some(doc)) == m.value)
      && (!(e.Some? && Truthy(e.value)) && !(m.Some? && Truthy(m.value)) ==>
            ReplyErrorValue(bodyText, Some(doc)) == if doc.Str? then doc else Str(GenericError))
  {
  }

  /** A string document is shown as it is, an empty one included; a non-string `error` value is shown as its JSON text. */
  lemma ReplyDocumentShown(status: int, bodyText: string, s: string, v: Value)
    requires status != 401
    requires Truthy(v) && !v.Str?
    ensures ReplyError(status, bodyText, Some(Str(s))) == Plain(s)
    ensures ReplyError(status, bodyText, Some(Obj(map["error" := v]))) == Stringified(v)
  {
    assert Member(Some(Obj(map["error" := v])), "error") == Some(v);
  }

  // ---------------------------------------------------------------- the scene loop

  /** Every scene has a non-whitespace character. */
  predicate NoBlank(scenes: seq<string>) {
    scenes == [] || (!Text.IsBlank(scenes[0]) && NoBlank(scenes[1..]))
  }

  /** The scenes the handler keeps are all non-blank. */
  lemma {:induction false} ValidScenesNoBlank(scenes: seq<string>)
    ensures NoBlank(ValidScenes(scenes))
  {
    if scenes != [] {
      ValidScenesNoBlank(scenes[1..]);
    }
  }

  /** Dropping one more element past a known head. */
  lemma DropPast<T>(s: seq<T>, k: nat, x: T, rest: seq<T>)
    requires k <= |s| && s[k..] == [x] + rest
    ensures s[k + 1..] == rest
  {
    assert s[k + 1..] == s[k..][1..];
  }

  /** The state after a successful generation of `item` at cost `cost` with its file downloaded. */
  function AfterDone(st: RunState, item: HistoryItem, cost: nat, voiceName: string): RunState {
    st.(history := [item] + st.history, stored := [item] + st.history, credits := st.credits - cost,
        counter := st.counter + 1, downloads := st.downloads + [Download(st.counter + 1, voiceName)])
  }

  /**
   * What one `generateTTS` call yields (`r`): null exactly for blank input;
   * a throw before any request when the cost exceeds the budget; a new
   * entry exactly when the input is affordable and the reply is audio,
   * paid for at its cost, numbered with the next counter value and, when
   * asked, downloaded under its file name; and the mock-raising 401 case
   * exactly when an affordable request got status 401.
   */
  lemma GenerateOutcomeSpec(input: string, autoDownload: bool, budget: int, model: string, voiceName: string,
                            d: Delivery, counter: nat, r: GenResult)
    requires r == GenerateOutcome(input, autoDownload, budget, model, voiceName, d, counter)
    ensures r.Skipped? <==> Text.IsBlank(input)
    ensures !Text.IsBlank(input) && TotalCost(input, model) > budget ==> r == Failed(Plain(NotEnoughCreditsMessage), false)
    ensures r.Done? ==>
      && r.cost == TotalCost(input, model) && r.cost <= budget
      && r.item == Entry(d, input, voiceName, counter + 1)
      && r.download == (if autoDownload then Some(Download(counter + 1, voiceName)) else None)
    ensures r.Done? <==> !Text.IsBlank(input) && TotalCost(input, model) <= budget
                         && d.reply.Received? && d.reply.status < 400 && d.reply.contentType != "application/json"
    ensures r.Failed? && r.authRejected <==> !Text.IsBlank(input) && TotalCost(input, model) <= budget
                                             && d.reply.Received? && d.reply.status == 401
  {
  }

  /** A step at a non-blank scene whose generation fails records its message and possibly the mock flag. */
  lemma StepFailed(st: RunState, input: string, d: Delivery, budget: int, model: string, voiceName: string)
    requires !Text.IsBlank(input)
    ensures !GenerateOutcome(input, true, budget, model, voiceName, d, st.counter).Skipped?
    ensures GenerateOutcome(input, true, budget, model, voiceName, d, st.counter).Failed? ==>
      Step(st, input, true, d, budget, model, voiceName)
      == st.(error := Some(ShownError(GenerateOutcome(input, true, budget, model, voiceName, d, st.counter).error)),
             usingMock := st.usingMock || GenerateOutcome(input, true, budget, model, voiceName, d, st.counter).authRejected)
  {
    GenerateOutcomeSpec(input, true, budget, model, voiceName, d, st.counter, GenerateOutcome(input, true, budget, model, voiceName, d, st.counter));
  }

  /** A step whose generation succeeds is `AfterDone` with the new entry and its cost. */
  lemma StepDone(st: RunState, input: string, d: Delivery, budget: int, model: string, voiceName: string)
    ensures GenerateOutcome(input, true, budget, model, voiceName, d, st.counter).Done? ==>
      Step(st, input, true, d, budget, model, voiceName)
      == AfterDone(st, GenerateOutcome(input, true, budget, model, voiceName, d, st.counter).item,
                   GenerateOutcome(input, true, budget, model, voiceName, d, st.counter).cost, voiceName)
  {
    GenerateOutcomeSpec(input, true, budget, model, voiceName, d, st.counter, GenerateOutcome(input, true, budget, model, voiceName, d, st.counter));
  }

  /** A run from a state that already holds an error changes nothing. */
  lemma RunStopped(st: RunState, scenes: seq<string>, ds: seq<Delivery>, budget: int, model: string, voiceName: string)
    requires |ds| == |scenes| && st.error.Some?
    ensures Run(st, scenes, ds, budget, model, voiceName) == st
  {
  }

  /** `r` records the failure `g` on top of the mock flag `usingMock`. */
  predicate StoppedBy(r: RunState, usingMock: bool, g: GenResult) {
    g.Failed? && r.error == Some(ShownError(g.error)) && r.usingMock == (usingMock || g.authRejected)
  }

  /** A failure at the first scene, in the form the whole run states it. */
  lemma FailureAtHead(st: RunState, scenes: seq<string>, ds: seq<Delivery>, budget: int, model: string, voiceName: string, r: RunState)
    requires |ds| == |scenes| && scenes != [] && r.counter == st.counter
    requires StoppedBy(r, st.usingMock, GenerateOutcome(scenes[0], true, budget, model, voiceName, ds[0], st.counter))
    ensures st.counter <= r.counter < st.counter + |scenes|
    ensures StoppedBy(r, st.usingMock, GenerateOutcome(scenes[r.counter - st.counter], true, budget, model, voiceName, ds[r.counter - st.counter], r.counter))
  {
    assert r.counter - st.counter == 0;
  }

  /** A failure the tail of a run stopped at, seen from the whole run that began one step earlier. */
  lemma FailureInTail(st: RunState, st1: RunState, scenes: seq<string>, ds: seq<Delivery>, budget: int, model: string, voiceName: string, r: RunState)
    requires |ds| == |scenes| && scenes != []
    requires st1.counter == st.counter + 1 && st1.usingMock == st.usingMock
    requires st1.counter <= r.counter < st1.counter + |scenes[1..]|
    requires StoppedBy(r, st1.usingMock, GenerateOutcome(scenes[1..][r.counter - st1.counter], true, budget, model, voiceName, ds[1..][r.counter - st1.counter], r.counter))
    ensures st.counter <= r.counter < st.counter + |scenes|
    ensures StoppedBy(r, st.usingMock, GenerateOutcome(scenes[r.counter - st.counter], true, budget, model, voiceName, ds[r.counter - st.counter], r.counter))
  {
    var k := r.counter - st.counter;
    assert scenes[1..][k - 1] == scenes[k] && ds[1..][k - 1] == ds[k];
  }

  /** The entries of the tail of a run, seen from the whole run that began one step earlier with `item`. */
  lemma EntriesInTail(st: RunState, st1: RunState, item: HistoryItem, scenes: seq<string>, ds: seq<Delivery>, voiceName: string, r: RunState)
    requires |ds| == |scenes| && scenes != [] && st1.counter == st.counter + 1 && st1.history == [item] + st.history
    requires item == Entry(ds[0], scenes[0], voiceName, st.counter + 1)
    requires st1.counter <= r.counter <= st1.counter + |scenes[1..]| && r.counter - st1.counter <= |r.history|
    requires r.history[r.counter - st1.counter..] == st1.history
    requires forall i :: 0 <= i < r.counter - st1.counter ==>
      r.history[i] == Entry(ds[1..][r.counter - st1.counter - 1 - i], scenes[1..][r.counter - st1.counter - 1 - i], voiceName, r.counter - i)
    ensures st.counter <= r.counter <= st.counter + |scenes| && r.counter - st.counter <= |r.history|
    ensures forall i :: 0 <= i < r.counter - st.counter ==>
      r.history[i] == Entry(ds[r.counter - st.counter - 1 - i], scenes[r.counter - st.counter - 1 - i], voiceName, r.counter - i)
  {
    var k := r.counter - st.counter;
    assert r.history[k - 1] == item by {
      assert r.history[k - 1..][0] == item;
    }
    forall i | 0 <= i < k
      ensures r.history[i] == Entry(ds[k - 1 - i], scenes[k - 1 - i], voiceName, r.counter - i)
    {
      if i < k - 1 {
        assert r.history[i] == Entry(ds[1..][k - 2 - i], scenes[1..][k - 2 - i], voiceName, r.counter - i);
        assert scenes[1..][k - 2 - i] == scenes[k - 1 - i];
        assert ds[1..][k - 2 - i] == ds[k - 1 - i];
      } else {
        assert r.history[i] == Entry(ds[0], scenes[0], voiceName, st.counter + 1);
      }
    }
  }

  /** The charges of the tail of a run, seen from the whole run that began one step earlier. */
  lemma ChargesInTail(st: RunState, st1: RunState, scenes: seq<string>, budget: int, model: string, r: RunState)
    requires scenes != [] && st1.counter == st.counter + 1 && st1.credits == st.credits - TotalCost(scenes[0], model)
    requires TotalCost(scenes[0], model) <= budget
    requires st1.counter <= r.counter <= st1.counter + |scenes[1..]|
    requires r.credits == st1.credits - CostSum(scenes[1..][..r.counter - st1.counter], model)
    requires forall j :: 0 <= j < r.counter - st1.counter ==> TotalCost(scenes[1..][j], model) <= budget
    ensures st.counter <= r.counter <= st.counter + |scenes|
    ensures r.credits == st.credits - CostSum(scenes[..r.counter - st.counter], model)
    ensures forall j :: 0 <= j < r.counter - st.counter ==> TotalCost(scenes[j], model) <= budget
  {
    var k := r.counter - st.counter;
    assert scenes[..k][1..] == scenes[1..][..k - 1];
    assert scenes[..k][0] == scenes[0];
    forall j | 0 <= j < k ensures TotalCost(scenes[j], model) <= budget {
      if j > 0 { assert scenes[j] == scenes[1..][j - 1]; }
    }
  }

  /** Every scene affordable and every reply audio carries over to the tails. */
  lemma AffordableAudioTail(scenes: seq<string>, ds: seq<Delivery>, budget: int, model: string)
    requires |ds| == |scenes| && scenes != []
    requires forall i :: 0 <= i < |scenes| ==> TotalCost(scenes[i], model) <= budget
    requires forall i :: 0 <= i < |ds| ==> ds[i].reply.Received? && ds[i].reply.status < 400 && ds[i].reply.contentType != "application/json"
    ensures TotalCost(scenes[0], model) <= budget
    ensures ds[0].reply.Received? && ds[0].reply.status < 400 && ds[0].reply.contentType != "application/json"
    ensures forall i :: 0 <= i < |scenes[1..]| ==> TotalCost(scenes[1..][i], model) <= budget
    ensures forall i :: 0 <= i < |ds[1..]| ==> ds[1..][i].reply.Received? && ds[1..][i].reply.status < 400 && ds[1..][i].reply.contentType != "application/json"
  {
    forall i | 0 <= i < |scenes[1..]| ensures TotalCost(scenes[1..][i], model) <= budget {
      assert scenes[1..][i] == scenes[i + 1];
    }
    forall i | 0 <= i < |ds[1..]| ensures ds[1..][i] == ds[i + 1] {
    }
  }

  /** The files after `counter` are the next one followed by the files after `counter + 1`. */
  lemma DownloadsCons(counter: nat, count: nat, voiceName: string)
    ensures Downloads(counter, count + 1, voiceName) == [Download(counter + 1, voiceName)] + Downloads(counter + 1, count, voiceName)
  {
  }

  lemma AppendCons<T>(a: seq<T>, x: T, tail: seq<T>)
    ensures (a + [x]) + tail == a + ([x] + tail)
  {
  }

  /** The downloads of the tail of a run, seen from the whole run that began one step earlier. */
  lemma DownloadsInTail(st: RunState, st1: RunState, voiceName: string, r: RunState)
    requires st1.counter == st.counter + 1 && st1.downloads == st.downloads + [Download(st.counter + 1, voiceName)]
    requires st1.counter <= r.counter
    requires r.downloads == st1.downloads + Downloads(st1.counter, r.counter - st1.counter, voiceName)
    ensures r.downloads == st.downloads + Downloads(st.counter, r.counter - st.counter, voiceName)
  {
    var k := r.counter - st.counter;
    DownloadsCons(st.counter, k - 1, voiceName);
    AppendCons(st.downloads, Download(st.counter + 1, voiceName), Downloads(st1.counter, k - 1, voiceName));
  }

  /** The scene loop with a scene left and no error yet runs the rest from the state after the first step. */
  lemma RunHead(st: RunState, scenes: seq<string>, ds: seq<Delivery>, budget: int, model: string, voiceName: string)
    requires |ds| == |scenes| && scenes != [] && st.error.None?
    ensures Run(st, scenes, ds, budget, model, voiceName)
            == Run(Step(st, scenes[0], true, ds[0], budget, model, voiceName), scenes[1..], ds[1..], budget, model, voiceName)
  {
  }

  /** The scene loop from position `k` with no error yet: the step at `k`, then the loop from `k + 1`. */
  lemma RunAt(st: RunState, scenes: seq<string>, ds: seq<Delivery>, k: nat, budget: int, model: string, voiceName: string)
    requires |ds| == |scenes| && k < |scenes| && st.error.None?
    ensures Run(st, scenes[k..], ds[k..], budget, model, voiceName)
            == Run(Step(st, scenes[k], true, ds[k], budget, model, voiceName), scenes[k + 1..], ds[k + 1..], budget, model, voiceName)
  {
    RunHead(st, scenes[k..], ds[k..], budget, model, voiceName);
    assert scenes[k..][1..] == scenes[k + 1..] && ds[k..][1..] == ds[k + 1..];
  }

  /**
   * The first step of a scene run over a non-blank first scene: a failure
   * ends the run with that failure recorded, a success goes on from the
   * state after it.
   */
  lemma RunFirst(st: RunState, scenes: seq<string>, ds: seq<Delivery>, budget: int, model: string, voiceName: string)
    requires |ds| == |scenes| && scenes != [] && st.error.None? && !Text.IsBlank(scenes[0])
    ensures GenerateOutcome(scenes[0], true, budget, model, voiceName, ds[0], st.counter).Failed?
            || GenerateOutcome(scenes[0], true, budget, model, voiceName, ds[0], st.counter).Done?
    ensures GenerateOutcome(scenes[0], true, budget, model, voiceName, ds[0], st.counter).Failed? ==>
      Run(st, scenes, ds, budget, model, voiceName)
      == st.(error := Some(ShownError(GenerateOutcome(scenes[0], true, budget, model, voiceName, ds[0], st.counter).error)),
             usingMock := st.usingMock || GenerateOutcome(scenes[0], true, budget, model, voiceName, ds[0], st.counter).authRejected)
    ensures GenerateOutcome(scenes[0], true, budget, model, voiceName, ds[0], st.counter).Done? ==>
      Run(st, scenes, ds, budget, model, voiceName)
      == Run(AfterDone(st, GenerateOutcome(scenes[0], true, budget, model, voiceName, ds[0], st.counter).item,
                       GenerateOutcome(scenes[0], true, budget, model, voiceName, ds[0], st.counter).cost, voiceName),
             scenes[1..], ds[1..], budget, model, voiceName)
  {
    RunHead(st, scenes, ds, budget, model, voiceName);
    StepFailed(st, scenes[0], ds[0], budget, model, voiceName);
    StepDone(st, scenes[0], ds[0], budget, model, voiceName);
    var st1 := Step(st, scenes[0], true, ds[0], budget, model, voiceName);
    if st1.error.Some? {
      RunStopped(st1, scenes[1..], ds[1..], budget, model, voiceName);
    }
  }

  /**
   * A scene run `r` over non-blank scenes gets through the first
   * `r.counter - st.counter` of them, adding one history entry for each,
   * and stopped early exactly when an error was recorded.
   */
  lemma {:induction false} RunCount(st: RunState, scenes: seq<string>, ds: seq<Delivery>, budget: int, model: string, voiceName: string, r: RunState)
    requires |ds| == |scenes| && st.error.None? && NoBlank(scenes)
    requires r == Run(st, scenes, ds, budget, model, voiceName)
    ensures st.counter <= r.counter <= st.counter + |scenes|
    ensures r.error.None? <==> r.counter == st.counter + |scenes|
    ensures |r.history| == |st.history| + (r.counter - st.counter)
    decreases |scenes|
  {
    if scenes != [] {
      var g := GenerateOutcome(scenes[0], true, budget, model, voiceName, ds[0], st.counter);
      GenerateOutcomeSpec(scenes[0], true, budget, model, voiceName, ds[0], st.counter, g);
      RunFirst(st, scenes, ds, budget, model, voiceName);
      if g.Done? {
        RunCount(AfterDone(st, g.item, g.cost, voiceName), scenes[1..], ds[1..], budget, model, voiceName, r);
      }
    }
  }

  /**
   * The entries a scene run `r` adds stand in front of the old history,
   * which is kept whole, and the stored history follows the shown one once
   * it changed.
   */
  lemma {:induction false} RunKeepsHistory(st: RunState, scenes: seq<string>, ds: seq<Delivery>, budget: int, model: string, voiceName: string, r: RunState)
    requires |ds| == |scenes| && st.error.None? && NoBlank(scenes)
    requires r == Run(st, scenes, ds, budget, model, voiceName)
    ensures st.counter <= r.counter <= st.counter + |scenes| && |r.history| == |st.history| + (r.counter - st.counter)
    ensures r.history[r.counter - st.counter..] == st.history
    ensures r.stored == if r.counter == st.counter then st.stored else r.history
    decreases |scenes|
  {
    RunCount(st, scenes, ds, budget, model, voiceName, r);
    if scenes != [] {
      var g := GenerateOutcome(scenes[0], true, budget, model, voiceName, ds[0], st.counter);
      GenerateOutcomeSpec(scenes[0], true, budget, model, voiceName, ds[0], st.counter, g);
      RunFirst(st, scenes, ds, budget, model, voiceName);
      if g.Done? {
        var st1 := AfterDone(st, g.item, g.cost, voiceName);
        RunKeepsHistory(st1, scenes[1..], ds[1..], budget, model, voiceName, r);
        DropPast(r.history, r.counter - st1.counter, g.item, st.history);
      }
    }
  }

  /** The entries a scene run `r` adds: newest first, each from its scene and delivery, numbered on from the counter. */
  lemma {:induction false} RunEntries(st: RunState, scenes: seq<string>, ds: seq<Delivery>, budget: int, model: string, voiceName: string, r: RunState)
    requires |ds| == |scenes| && st.error.None? && NoBlank(scenes)
    requires r == Run(st, scenes, ds, budget, model, voiceName)
    ensures st.counter <= r.counter <= st.counter + |scenes| && r.counter - st.counter <= |r.history|
    ensures forall i :: 0 <= i < r.counter - st.counter ==>
      r.history[i] == Entry(ds[r.counter - st.counter - 1 - i], scenes[r.counter - st.counter - 1 - i], voiceName, r.counter - i)
    decreases |scenes|
  {
        if scenes != [] {
      var g := GenerateOutcome(scenes[0], true, budget, model, voiceName, ds[0], st.counter);
      GenerateOutcomeSpec(scenes[0], true, budget, model, voiceName, ds[0], st.counter, g);
      RunFirst(st, scenes, ds, budget, model, voiceName);
      if g.Done? {
        var st1 := AfterDone(st, g.item, g.cost, voiceName);
        RunKeepsHistory(st1, scenes[1..], ds[1..], budget, model, voiceName, r);
        RunEntries(st1, scenes[1..], ds[1..], budget, model, voiceName, r);
        EntriesInTail(st, st1, g.item, scenes, ds, voiceName, r);
      } else {
        RunCount(st, scenes, ds, budget, model, voiceName, r);
        assert r.counter == st.counter;
      }
    }
  }

  /**
   * The credits after a scene run `r` drop by exactly the cost of the scenes
   * got through, and each of those cost no more than the captured budget.
   */
  lemma {:induction false} RunCharges(st: RunState, scenes: seq<string>, ds: seq<Delivery>, budget: int, model: string, voiceName: string, r: RunState)
    requires |ds| == |scenes| && st.error.None? && NoBlank(scenes)
    requires r == Run(st, scenes, ds, budget, model, voiceName)
    ensures st.counter <= r.counter <= st.counter + |scenes|
    ensures r.credits == st.credits - CostSum(scenes[..r.counter - st.counter], model)
    ensures forall j :: 0 <= j < r.counter - st.counter ==> TotalCost(scenes[j], model) <= budget
    decreases |scenes|
  {
    RunCount(st, scenes, ds, budget, model, voiceName, r);
    if scenes != [] {
      var g := GenerateOutcome(scenes[0], true, budget, model, voiceName, ds[0], st.counter);
      GenerateOutcomeSpec(scenes[0], true, budget, model, voiceName, ds[0], st.counter, g);
      RunFirst(st, scenes, ds, budget, model, voiceName);
      if g.Failed? {
        assert scenes[..0] == [];
      } else {
        var st1 := AfterDone(st, g.item, g.cost, voiceName);
        RunCharges(st1, scenes[1..], ds[1..], budget, model, voiceName, r);
        ChargesInTail(st, st1, scenes, budget, model, r);
      }
    }
  }

  /** The files a scene run `r` downloads: one per scene got through, numbered on from the counter, in order. */
  lemma {:induction false} RunDownloads(st: RunState, scenes: seq<string>, ds: seq<Delivery>, budget: int, model: string, voiceName: string, r: RunState)
    requires |ds| == |scenes| && st.error.None? && NoBlank(scenes)
    requires r == Run(st, scenes, ds, budget, model, voiceName)
    ensures st.counter <= r.counter <= st.counter + |scenes|
    ensures r.downloads == st.downloads + Downloads(st.counter, r.counter - st.counter, voiceName)
    decreases |scenes|
  {
    RunCount(st, scenes, ds, budget, model, voiceName, r);
    if scenes != [] {
      var g := GenerateOutcome(scenes[0], true, budget, model, voiceName, ds[0], st.counter);
      GenerateOutcomeSpec(scenes[0], true, budget, model, voiceName, ds[0], st.counter, g);
      RunFirst(st, scenes, ds, budget, model, voiceName);
      if g.Failed? {
        assert Downloads(st.counter, 0, voiceName) == [];
      } else {
        var st1 := AfterDone(st, g.item, g.cost, voiceName);
        RunDownloads(st1, scenes[1..], ds[1..], budget, model, voiceName, r);
        DownloadsInTail(st, st1, voiceName, r);
      }
    }
  }

  /**
   * A scene run `r` that records an error stopped at the first scene not
   * got through, and the error is the one that scene's generation threw;
   * the mock flag is raised only by a 401 reply to that last request.
   */
  lemma {:induction false} RunStopsAtFirstFailure(st: RunState, scenes: seq<string>, ds: seq<Delivery>, budget: int, model: string, voiceName: string, r: RunState)
    requires |ds| == |scenes| && st.error.None? && NoBlank(scenes)
    requires r == Run(st, scenes, ds, budget, model, voiceName)
    ensures r.error.None? ==> r.usingMock == st.usingMock
    ensures r.error.Some? ==>
      && st.counter <= r.counter < st.counter + |scenes|
      && StoppedBy(r, st.usingMock, GenerateOutcome(scenes[r.counter - st.counter], true, budget, model, voiceName, ds[r.counter - st.counter], r.counter))
    decreases |scenes|
  {
    if scenes != [] {
      var g := GenerateOutcome(scenes[0], true, budget, model, voiceName, ds[0], st.counter);
      GenerateOutcomeSpec(scenes[0], true, budget, model, voiceName, ds[0], st.counter, g);
      RunFirst(st, scenes, ds, budget, model, voiceName);
      if g.Done? {
        var st1 := AfterDone(st, g.item, g.cost, voiceName);
        RunStopsAtFirstFailure(st1, scenes[1..], ds[1..], budget, model, voiceName, r);
        if r.error.Some? {
          FailureInTail(st, st1, scenes, ds, budget, model, voiceName, r);
        }
      } else {
        FailureAtHead(st, scenes, ds, budget, model, voiceName, r);
      }
    }
  }

  /**
   * Each scene is checked only against the captured budget, never against
   * the running credits: when every scene alone is affordable and every
   * reply is audio, all scenes are generated and the credits drop by their
   * total cost, which may exceed the budget.
   */
  lemma {:induction false} EachSceneCheckedAgainstCapturedBudget(st: RunState, scenes: seq<string>, ds: seq<Delivery>, budget: int, model: string, voiceName: string, r: RunState)
    requires |ds| == |scenes| && st.error.None? && NoBlank(scenes)
    requires forall i :: 0 <= i < |scenes| ==> TotalCost(scenes[i], model) <= budget
    requires forall i :: 0 <= i < |ds| ==> ds[i].reply.Received? && ds[i].reply.status < 400 && ds[i].reply.contentType != "application/json"
    requires r == Run(st, scenes, ds, budget, model, voiceName)
    ensures r.counter == st.counter + |scenes| && r.error.None?
    ensures r.credits == st.credits - CostSum(scenes, model)
    decreases |scenes|
  {
    if scenes != [] {
      var g := GenerateOutcome(scenes[0], true, budget, model, voiceName, ds[0], st.counter);
      GenerateOutcomeSpec(scenes[0], true, budget, model, voiceName, ds[0], st.counter, g);
      RunFirst(st, scenes, ds, budget, model, voiceName);
      AffordableAudioTail(scenes, ds, budget, model);
      EachSceneCheckedAgainstCapturedBudget(AfterDone(st, g.item, g.cost, voiceName), scenes[1..], ds[1..], budget, model, voiceName, r);
    }
  }

  /** The non-blank scenes of a list without blank scenes are the list itself. */
  lemma {:induction false} ValidScenesOfNoBlank(scenes: seq<string>)
    requires NoBlank(scenes)
    ensures ValidScenes(scenes) == scenes
  {
    if scenes != [] {
      ValidScenesOfNoBlank(scenes[1..]);
    }
  }

  /** Both 8-character scenes are kept by the blank filter. */
  lemma TwoScenesAllValid()
    ensures ValidScenes(["aaaaaaaa", "aaaaaaaa"]) == ["aaaaaaaa", "aaaaaaaa"]
  {
    var scenes := ["aaaaaaaa", "aaaaaaaa"];
    assert !Text.IsBlank(scenes[0]) by { assert !Text.IsWhitespace(scenes[0][0]); }
    assert NoBlank(scenes[1..]);
    ValidScenesOfNoBlank(scenes);
  }

  /** Each 8-character scene costs 8 under the default model, so the two together cost 16. */
  lemma TwoScenesCost()
    ensures forall i :: 0 <= i < 2 ==> TotalCost(["aaaaaaaa", "aaaaaaaa"][i], "eleven_multilingual_v2") <= 10
    ensures CostSum(["aaaaaaaa", "aaaaaaaa"], "eleven_multilingual_v2") == 16
  {
    var scenes := ["aaaaaaaa", "aaaaaaaa"];
    assert scenes[1..][1..] == [];
  }

  /**
   * Two 8-character scenes with 10 credits: each passes the check against
   * the captured 10, so both are generated and the credits end at -6.
   */
  lemma SceneModeCanOverdraw(st: RunState, ds: seq<Delivery>)
    requires st.credits == 10 && |ds| == DeliveriesNeeded(true, ["aaaaaaaa", "aaaaaaaa"], "")
    requires forall i :: 0 <= i < |ds| ==> ds[i].reply == Received(200, "audio/mpeg", "", None)
    ensures Generate(st, true, ["aaaaaaaa", "aaaaaaaa"], "", ds, "eleven_multilingual_v2", "Rachel").credits == -6
  {
    var scenes := ["aaaaaaaa", "aaaaaaaa"];
    TwoScenesAllValid();
    TwoScenesCost();
    SceneModeRuns(st, scenes, "", ds, "eleven_multilingual_v2", "Rachel");
    var r := Run(st.(error := None), scenes, ds, 10, "eleven_multilingual_v2", "Rachel");
    EachSceneCheckedAgainstCapturedBudget(st.(error := None), scenes, ds, 10, "eleven_multilingual_v2", "Rachel", r);
  }

  /**
   * With at least one non-blank scene, scene mode clears the error and runs
   * the loop on the non-blank scenes, none of which is blank, against the
   * credits at the start of the handler.
   */
  lemma SceneModeRuns(st: RunState, scenes: seq<string>, text: string, ds: seq<Delivery>, model: string, voiceName: string)
    requires ValidScenes(scenes) != [] && |ds| == |ValidScenes(scenes)|
    ensures Generate(st, true, scenes, text, ds, model, voiceName) == Run(st.(error := None), ValidScenes(scenes), ds, st.credits, model, voiceName)
    ensures NoBlank(ValidScenes(scenes))
  {
    ValidScenesNoBlank(scenes);
  }

  /**
   * The scene loop as the handler runs it (result `r`, over scenes none of
   * which is blank, as `SceneModeRuns` shows): the scenes are generated in
   * order until the first failure; the new entries come from them newest
   * first and numbered on from the counter, in front of the whole old
   * history; the credits drop by their cost; and each generated scene was
   * affordable against the captured `budget`.
   */
  lemma SceneLoopOutcome(st: RunState, scenes: seq<string>, ds: seq<Delivery>, budget: int, model: string, voiceName: string, r: RunState)
    requires |ds| == |scenes| && NoBlank(scenes) && st.error.None?
    requires r == Run(st, scenes, ds, budget, model, voiceName)
    ensures st.counter <= r.counter <= st.counter + |scenes|
    ensures |r.history| == |st.history| + (r.counter - st.counter) && r.history[r.counter - st.counter..] == st.history
    ensures forall i :: 0 <= i < r.counter - st.counter ==>
      r.history[i] == Entry(ds[r.counter - st.counter - 1 - i], scenes[r.counter - st.counter - 1 - i], voiceName, r.counter - i)
    ensures r.credits == st.credits - CostSum(scenes[..r.counter - st.counter], model)
    ensures forall j :: 0 <= j < r.counter - st.counter ==> TotalCost(scenes[j], model) <= budget
  {
    RunKeepsHistory(st, scenes, ds, budget, model, voiceName, r);
    RunEntries(st, scenes, ds, budget, model, voiceName, r);
    RunCharges(st, scenes, ds, budget, model, voiceName, r);
  }

  /** Single mode with a generated text prepends exactly one entry and charges exactly its cost. */
  lemma SingleModePrependsOne(st: RunState, text: string, d: Delivery, model: string, voiceName: string, r: RunState)
    requires !Text.IsBlank(text)
    requires r == Generate(st, false, [], text, [d], model, voiceName)
    ensures GenerateOutcome(text, false, st.credits, model, voiceName, d, st.counter).Done? ==>
      && r.history == [GenerateOutcome(text, false, st.credits, model, voiceName, d, st.counter).item] + st.history
      && r.stored == r.history && r.credits == st.credits - TotalCost(text, model) && r.counter == st.counter + 1
      && r.downloads == st.downloads && r.error.None?
    ensures GenerateOutcome(text, false, st.credits, model, voiceName, d, st.counter).Failed? ==>
      r.history == st.history && r.credits == st.credits && r.counter == st.counter && r.error.Some?
  {
    GenerateOutcomeSpec(text, false, st.credits, model, voiceName, d, st.counter, GenerateOutcome(text, false, st.credits, model, voiceName, d, st.counter));
  }

  // ---------------------------------------------------------------- voice preview

  /**
   * A preview that yields audio changes nothing but the stored counter: the
   * next generation is numbered two past the counter the preview began
   * with, so the file numbers skip one.
   */
  lemma PreviewConsumesNumber(st: RunState, voices: seq<VoiceOption>, selected: string, d: Delivery, model: string, voiceName: string,
                              input: string, autoDownload: bool, budget: int, next: Delivery)
    requires TotalCost(PreviewText(voices, selected), model) <= st.credits
    requires d.reply.Received? && d.reply.status < 400 && d.reply.contentType != "application/json"
    ensures Preview(st, PreviewText(voices, selected), d, model, voiceName) == st.(counter := st.counter + 1)
    ensures var g := GenerateOutcome(input, autoDownload, budget, model, voiceName, next, st.counter + 1);
      g.Done? ==> g.item.index == Some(st.counter + 2)
  {
    var text := PreviewText(voices, selected);
    GenerateOutcomeSpec(text, false, st.credits, model, voiceName, d, st.counter, GenerateOutcome(text, false, st.credits, model, voiceName, d, st.counter));
    GenerateOutcomeSpec(input, autoDownload, budget, model, voiceName, next, st.counter + 1,
                        GenerateOutcome(input, autoDownload, budget, model, voiceName, next, st.counter + 1));
  }

  /** A preview rejected with 401 shows the fixed key message and raises the mock flag. */
  lemma PreviewRejectedKey(st: RunState, voices: seq<VoiceOption>, selected: string, d: Delivery, model: string, voiceName: string)
    requires TotalCost(PreviewText(voices, selected), model) <= st.credits
    requires d.reply.Received? && d.reply.status == 401
    ensures Preview(st, PreviewText(voices, selected), d, model, voiceName) == st.(error := Some(Plain(RejectedKeyMessage)), usingMock := true)
  {
    var text := PreviewText(voices, selected);
    GenerateOutcomeSpec(text, false, st.credits, model, voiceName, d, st.counter, GenerateOutcome(text, false, st.credits, model, voiceName, d, st.counter));
  }
}
