/** The generation logic of the editor page (client/src/pages/editor.tsx):
    the checks run before an audio or video request is sent, the simulated
    progress bar of an audio request, and `checkProgress`, the monitor that
    polls the video task until it completes, fails or gives up. Timers
    become explicit steps: each call of `CheckProgress` is one firing of
    the timer, and it returns the delay before the next one (or none when
    monitoring stops). Every reply and every database lookup is a
    parameter. */
module Editor {
  import opened Wrappers
  import Strs

  // ---------------------------------------------------------------------
  // Request validation

  const NoTextTitle := "請輸入文本"
  const NoReferenceTitle := "請上傳參考音頻"
  const NoCharacterTitle := "請選擇人物模特"

  /** `handleGenerateAudio`'s checks: the error toast title, or `None` when
      the request is sent. Only the emptiness of `inputText` is checked. */
  function AudioRequestError(inputText: string, voiceType: string, hasReference: bool): (r: Option<string>)
    ensures r.None? <==> ((inputText != "" || voiceType != "basic_tts")
                          && (voiceType != "voice_clone" || hasReference))
    ensures r.Some? ==> r.value in {NoTextTitle, NoReferenceTitle}
  {
    if inputText == "" && voiceType == "basic_tts" then Some(NoTextTitle)
    else if voiceType == "voice_clone" && !hasReference then Some(NoReferenceTitle)
    else None
  }

  /** `handleGenerateVideo`'s checks: a character model must be chosen,
      then the audio checks apply. */
  function VideoRequestError(characterModelId: string, inputText: string, voiceType: string, hasReference: bool): (r: Option<string>)
    ensures characterModelId == "" ==> r == Some(NoCharacterTitle)
    ensures characterModelId != "" ==> r == AudioRequestError(inputText, voiceType, hasReference)
  {
    if characterModelId == "" then Some(NoCharacterTitle)
    else AudioRequestError(inputText, voiceType, hasReference)
  }

  /** The text check is for emptiness only: a text of blanks is sent. */
  lemma BlankTextIsSent(text: string)
    requires text != [] && Strs.IsBlank(text)
    ensures AudioRequestError(text, "basic_tts", false) == None
  {
  }

  /** A video request is sent exactly when an audio request with the same
      voice settings would be and a character model is chosen. */
  lemma VideoNeedsCharacter(characterModelId: string, inputText: string, voiceType: string, hasReference: bool)
    ensures VideoRequestError(characterModelId, inputText, voiceType, hasReference).None?
        <==> (characterModelId != "" && AudioRequestError(inputText, voiceType, hasReference).None?)
  {
  }

  // ---------------------------------------------------------------------
  // Simulated audio progress

  /** One 300 ms tick of the audio progress updater: the next progress and
      whether the interval is cleared. */
  function AudioTick(prev: int): (r: (int, bool))
    ensures r.1 <==> prev >= 100
    ensures r.1 ==> r.0 == 100
    ensures !r.1 ==> r.0 == prev + 10
  {
    if prev >= 100 then (100, true) else (prev + 10, false)
  }

  /** The progress after `n` ticks from 0, as long as none has stopped. */
  function AudioProgressAfter(n: nat): int
  {
    if n == 0 then 0 else AudioTick(AudioProgressAfter(n - 1)).0
  }

  /** The bar climbs by ten per tick to 100, and the tick after it reaches
      100 (the eleventh) is the one that stops. */
  lemma {:induction false} AudioProgressClimbs(n: nat)
    requires n <= 10
    ensures AudioProgressAfter(n) == 10 * n
    ensures AudioTick(AudioProgressAfter(n)).1 <==> n == 10
  {
    if n > 0 {
      AudioProgressClimbs(n - 1);
    }
  }

  /** What the page shows once the audio bar stops. */
  datatype AudioEnd = AudioReady(url: string, id: string) | AudioMalformed

  /** The reply's `data.audioUrl` decides: present and non-empty gives the
      audio, anything else the "malformed reply" toast. */
  function AudioResult(audioUrl: Option<string>, id: string): (r: AudioEnd)
    ensures r.AudioReady? <==> Truthy(audioUrl)
    ensures r.AudioReady? ==> r.url == audioUrl.value && r.id == id
  {
    if Truthy(audioUrl) then AudioReady(audioUrl.value, id) else AudioMalformed
  }

  // ---------------------------------------------------------------------
  // Video task monitor

  /** The JSON `status` of a task: a number, a string or absent. */
  datatype Status = Code(n: int) | Label(text: string) | NoStatus

  /** `statusData.data` of a code-10000 reply. */
  datatype TaskData = TaskData(status: Status, progress: Option<int>, result: Option<string>, videoUrl: Option<string>)

  /** One `/api/video/query` call: it threw, or it returned a code and,
      maybe, `data`. */
  datatype QueryReply = QueryThrew | QueryReply(code: int, data: Option<TaskData>)

  /** `data` of a `/api/content/{id}` reply. */
  datatype ContentRecord = ContentRecord(id: string, status: Option<string>, outputPath: string)

  /** One `/api/content/{id}` call: it threw, or it returned. */
  datatype ContentReply = ContentThrew | ContentReply(success: bool, data: Option<ContentRecord>)

  /** Where monitoring stands; every value but `Monitoring` ends it, and
      `generatingVideo` is true exactly while `Monitoring`. */
  datatype Outcome = Monitoring | VideoReady(url: string, id: string) | VideoFailed | MonitorTimeout(description: string)

  /** The monitor's state: the closure's `retryCount`, the progress shown
      and the outcome. */
  datatype Monitor = Monitor(retryCount: nat, progress: int, outcome: Outcome)

  const MaxRetries: nat := 60
  const ProgressCode := 10000
  const MissingTaskCode := 10004
  /** Milliseconds before the next check. */
  const FirstDelay: nat := 5000
  const ProgressDelay: nat := 3000
  const RetryDelay: nat := 5000

  const StillRunningText := "影片可能還在生成中，請稍後到作品管理查看"
  const NoStatusText := "無法獲取影片生成狀態，請稍後到作品管理查看"
  const NetworkText := "網路連接問題，請稍後到作品管理查看"

  predicate IsDigit(c: char) { '0' <= c <= '9' }

  /** End of the run of digits starting at `j`. */
  function DigitsEnd(s: string, j: nat): (e: nat)
    requires j <= |s|
    ensures j <= e <= |s|
    ensures forall k :: j <= k < e ==> IsDigit(s[k])
    ensures e == |s| || !IsDigit(s[e])
    decreases |s| - j
  {
    if j < |s| && IsDigit(s[j]) then DigitsEnd(s, j + 1) else j
  }

  /** `/task_(\d+)_/` tried at offset `i`: the digits captured, if it
      matches there. */
  function TaskIdAt(s: string, i: nat): (r: Option<string>)
    requires i <= |s|
    ensures r.Some? ==> r.value != [] && forall k :: 0 <= k < |r.value| ==> IsDigit(r.value[k])
    ensures r.Some? ==> Strs.OccursAt(s, "task_", i) && Strs.OccursAt(s, "task_" + r.value + "_", i)
  {
    if !Strs.OccursAt(s, "task_", i) then None
    else
      var e := DigitsEnd(s, i + 5);
      if e > i + 5 && e < |s| && s[e] == '_' then
        assert s[i..e + 1] == s[i..i + 5] + s[i + 5..e] + [s[e]];
        Some(s[i + 5..e])
      else None
  }

  /** The leftmost match at or after `i`. */
  function TaskIdFrom(s: string, i: nat): (r: Option<string>)
    requires i <= |s|
    ensures r.Some? ==> exists p :: i <= p <= |s| && TaskIdAt(s, p) == r
    ensures r.None? <==> forall p :: i <= p <= |s| ==> TaskIdAt(s, p).None?
    decreases |s| - i
  {
    if TaskIdAt(s, i).Some? then TaskIdAt(s, i)
    else if i == |s| then None
    else TaskIdFrom(s, i + 1)
  }

  /** The match found is the leftmost one. */
  lemma {:induction false} TaskIdLeftmost(s: string, i: nat, p: nat)
    requires i <= p <= |s| && TaskIdAt(s, p).Some?
    requires forall q :: i <= q < p ==> TaskIdAt(s, q).None?
    ensures TaskIdFrom(s, i) == TaskIdAt(s, p)
    decreases p - i
  {
    if i < p {
      TaskIdLeftmost(s, i + 1, p);
    }
  }

  /** `taskCode.match(/task_(\d+)_/)?.[1]`: the content id in a task code. */
  function TaskId(taskCode: string): (r: Option<string>)
    ensures r.Some? ==> Strs.Contains(taskCode, "task_" + r.value + "_")
  {
    var r := TaskIdFrom(taskCode, 0);
    if r.Some? then
      var p :| 0 <= p <= |taskCode| && TaskIdAt(taskCode, p) == r;
      Strs.ContainsAt(taskCode, "task_" + r.value + "_", p);
      r
    else r
  }

  /** A code built as `task_<digits>_<rest>` yields those digits. */
  lemma TaskIdOfCode(digits: string, rest: string)
    requires digits != [] && forall k :: 0 <= k < |digits| ==> IsDigit(digits[k])
    ensures TaskId("task_" + digits + "_" + rest) == Some(digits)
  {
    var s := "task_" + digits + "_" + rest;
    assert s[..5] == "task_";
    DigitsEndOf(s, 5, |digits|);
    assert s[5..5 + |digits|] == digits;
  }

  lemma {:induction false} DigitsEndOf(s: string, j: nat, n: nat)
    requires j + n < |s| && !IsDigit(s[j + n])
    requires forall k :: j <= k < j + n ==> IsDigit(s[k])
    ensures DigitsEnd(s, j) == j + n
    decreases n
  {
    if n > 0 {
      DigitsEndOf(s, j + 1, n - 1);
    }
  }

  /** A code without "task_" (a bare UUID, say) yields no id. */
  lemma NoMarkerNoId(taskCode: string)
    requires !Strs.Contains(taskCode, "task_")
    ensures TaskId(taskCode) == None
  {
    forall p | 0 <= p <= |taskCode|
      ensures TaskIdAt(taskCode, p).None?
    {
      if Strs.OccursAt(taskCode, "task_", p) {
        Strs.ContainsAt(taskCode, "task_", p);
      }
    }
  }

  /** `data.progress || 0`. */
  function ProgressOf(d: TaskData): (p: int)
    ensures d.progress.Some? ==> p == d.progress.value
    ensures d.progress.None? ==> p == 0
  {
    if d.progress.Some? then d.progress.value else 0
  }

  /** `data.video_url || /videos/{result}` for a finished task. */
  function VideoUrl(d: TaskData): (url: string)
    requires Truthy(d.result)
    ensures Truthy(d.videoUrl) ==> url == d.videoUrl.value
    ensures !Truthy(d.videoUrl) ==> url == "/videos/" + d.result.value
  {
    if Truthy(d.videoUrl) then d.videoUrl.value else "/videos/" + d.result.value
  }

  /** The status of a finished task (2 with a result) and of a failed one. */
  predicate Finished(d: TaskData) { d.status == Code(2) && Truthy(d.result) }
  predicate FailedStatus(d: TaskData) { d.status == Label("failed") || d.status == Code(-1) }

  /** The database check made when a 10004 reply uses up the last retry:
      the content row named by the monitored task code decides, and everything that
      does not say "completed" or "failed" (no id in the code, a lookup
      that throws, a row without data) is a timeout. */
  function DatabaseVerdict(taskCode: string, lookup: string -> ContentReply): (o: Outcome)
    ensures o != Monitoring
    ensures TaskId(taskCode).None? ==> o == MonitorTimeout(StillRunningText)
    ensures o.VideoReady? ==> (
      TaskId(taskCode).Some?
      && var c := lookup(TaskId(taskCode).value);
         c.ContentReply? && c.success && c.data.Some? && c.data.value.status == Some("completed")
         && o == VideoReady(c.data.value.outputPath, c.data.value.id))
    ensures o.VideoFailed? ==> (
      TaskId(taskCode).Some?
      && var c := lookup(TaskId(taskCode).value);
         c.ContentReply? && c.data.Some? && c.data.value.status == Some("failed"))
  {
    match TaskId(taskCode)
    case None => MonitorTimeout(StillRunningText)
    case Some(id) =>
      match lookup(id)
      case ContentThrew => MonitorTimeout(StillRunningText)
      case ContentReply(success, data) =>
        if success && data.Some? && data.value.status == Some("completed") then
          VideoReady(data.value.outputPath, data.value.id)
        else if data.Some? && data.value.status == Some("failed") then VideoFailed
        else MonitorTimeout(StillRunningText)
  }

  /** A failed check: one more retry, and a timeout with `description`
      once the count reaches the maximum. */
  function Retry(m: Monitor, description: string): (r: (Monitor, Option<nat>))
    ensures r.0.retryCount == m.retryCount + 1 && r.0.progress == m.progress
    ensures r.1.None? <==> m.retryCount + 1 >= MaxRetries
    ensures r.1.None? ==> r.0.outcome == MonitorTimeout(description)
    ensures r.1.Some? ==> r.1.value == RetryDelay && r.0.outcome == m.outcome
  {
    var n := m.retryCount + 1;
    if n >= MaxRetries then (m.(retryCount := n, outcome := MonitorTimeout(description)), None)
    else (m.(retryCount := n), Some(RetryDelay))
  }

  /** One run of `checkProgress`: the new state and the delay before the
      next run, `None` when monitoring stops. A code-10000 reply without
      `data` makes reading its status throw, which the catch handles like
      a failed request. */
  function Step(m: Monitor, taskCode: string, reply: QueryReply, lookup: string -> ContentReply): (r: (Monitor, Option<nat>))
    requires m.outcome == Monitoring
    ensures r.1.None? <==> r.0.outcome != Monitoring
  {
    match reply
    case QueryThrew => Retry(m, NetworkText)
    case QueryReply(code, data) =>
      if code == ProgressCode then
        if data.None? then Retry(m, NetworkText)
        else
          var d := data.value;
          var m' := m.(retryCount := 0, progress := ProgressOf(d));
          if Finished(d) then (m'.(progress := 100, outcome := VideoReady(VideoUrl(d), taskCode)), None)
          else if FailedStatus(d) then (m'.(outcome := VideoFailed), None)
          else (m', Some(ProgressDelay))
      else if code == MissingTaskCode then
        var n := m.retryCount + 1;
        if n >= MaxRetries then
          var o := DatabaseVerdict(taskCode, lookup);
          (m.(retryCount := n, progress := if o.VideoReady? then 100 else m.progress, outcome := o), None)
        else (m.(retryCount := n), Some(RetryDelay))
      else Retry(m, NoStatusText)
  }

  /** A reply that carries task data: it resets the retry count, shows the
      task's progress, and ends monitoring only on a finished or failed
      status; any other status, 3 included, is checked again in 3 s. */
  lemma ProgressReplyResets(m: Monitor, taskCode: string, d: TaskData, lookup: string -> ContentReply)
    requires m.outcome == Monitoring
    ensures var r := Step(m, taskCode, QueryReply(ProgressCode, Some(d)), lookup);
      r.0.retryCount == 0
      && (Finished(d) ==> r.0.outcome == VideoReady(VideoUrl(d), taskCode) && r.0.progress == 100)
      && (!Finished(d) ==> r.0.progress == ProgressOf(d))
      && (!Finished(d) && FailedStatus(d) ==> r.0.outcome == VideoFailed)
      && (!Finished(d) && !FailedStatus(d) ==> r == (r.0, Some(ProgressDelay)) && r.0.outcome == Monitoring)
  {
  }

  /** Every other reply (a throw, a missing task, any other code, or a
      10000 without data) costs one retry and ends monitoring exactly when
      the count reaches 60. */
  predicate Failing(reply: QueryReply)
  {
    reply.QueryThrew? || reply.code != ProgressCode || reply.data.None?
  }

  lemma FailingReplyCounts(m: Monitor, taskCode: string, reply: QueryReply, lookup: string -> ContentReply)
    requires m.outcome == Monitoring
    requires Failing(reply)
    ensures var r := Step(m, taskCode, reply, lookup);
      r.0.retryCount == m.retryCount + 1
      && (r.1.None? <==> m.retryCount + 1 >= MaxRetries)
      && (r.1.Some? ==> r.1.value == RetryDelay && r.0 == m.(retryCount := m.retryCount + 1))
  {
  }

  /** The database is consulted only by a 10004 reply on the last retry,
      and only when the monitored task code names a content id. */
  lemma DatabaseOnlyOnLastMissing(m: Monitor, taskCode: string, lookup: string -> ContentReply, lookup': string -> ContentReply, reply: QueryReply)
    requires m.outcome == Monitoring
    requires reply.QueryThrew? || reply.code != MissingTaskCode || m.retryCount + 1 < MaxRetries
             || TaskId(taskCode).None?
    ensures Step(m, taskCode, reply, lookup) == Step(m, taskCode, reply, lookup')
  {
  }

  /** The monitor over a stream of replies: replies after it stops are
      never requested. */
  function Run(m: Monitor, taskCode: string, replies: seq<QueryReply>, lookup: string -> ContentReply): (r: Monitor)
    ensures m.outcome != Monitoring ==> r == m
    decreases |replies|
  {
    if replies == [] || m.outcome != Monitoring then m
    else Run(Step(m, taskCode, replies[0], lookup).0, taskCode, replies[1..], lookup)
  }

  /** Failing replies alone end monitoring by the 60th retry. */
  lemma {:induction false} FailuresEndMonitoring(m: Monitor, taskCode: string, replies: seq<QueryReply>, lookup: string -> ContentReply)
    requires m.outcome == Monitoring && m.retryCount < MaxRetries
    requires |replies| >= MaxRetries - m.retryCount
    requires forall i :: 0 <= i < |replies| ==> Failing(replies[i])
    ensures Run(m, taskCode, replies, lookup).outcome != Monitoring
    ensures Run(m, taskCode, replies, lookup).retryCount == MaxRetries
    decreases MaxRetries - m.retryCount
  {
    var s := Step(m, taskCode, replies[0], lookup);
    FailingReplyCounts(m, taskCode, replies[0], lookup);
    if m.retryCount + 1 < MaxRetries {
      assert forall i :: 0 <= i < |replies[1..]| ==> replies[1..][i] == replies[i + 1];
      FailuresEndMonitoring(s.0, taskCode, replies[1..], lookup);
    }
  }

  /** Progress replies whose status is neither finished nor failed keep
      the monitor polling however many there are: the reset means no
      bound on the number of checks. */
  predicate StillWorking(reply: QueryReply)
  {
    reply.QueryReply? && reply.code == ProgressCode && reply.data.Some?
    && !Finished(reply.data.value) && !FailedStatus(reply.data.value)
  }

  lemma {:induction false} ProgressNeverGivesUp(m: Monitor, taskCode: string, replies: seq<QueryReply>, lookup: string -> ContentReply)
    requires m.outcome == Monitoring
    requires forall i :: 0 <= i < |replies| ==> StillWorking(replies[i])
    ensures Run(m, taskCode, replies, lookup).outcome == Monitoring
    ensures replies != [] ==> Run(m, taskCode, replies, lookup).retryCount == 0
    decreases |replies|
  {
    if replies != [] {
      var s := Step(m, taskCode, replies[0], lookup);
      ProgressReplyResets(m, taskCode, replies[0].data.value, lookup);
      assert forall i :: 0 <= i < |replies[1..]| ==> replies[1..][i] == replies[i + 1];
      ProgressNeverGivesUp(s.0, taskCode, replies[1..], lookup);
    }
  }

  /** The monitor the video mutation starts: the closure's retry counter
      and the progress and outcome the page shows. */
  class VideoMonitor {
    const taskCode: string
    var retryCount: nat
    var progress: int
    var outcome: Outcome

    /** Monitoring starts at progress 0 with no retries; the first check
        runs after `FirstDelay`. */
    constructor (taskCode: string)
      ensures this.taskCode == taskCode
      ensures retryCount == 0 && progress == 0 && outcome == Monitoring
    {
      this.taskCode := taskCode;
      retryCount := 0;
      progress := 0;
      outcome := Monitoring;
    }

    function State(): Monitor
      reads this
    {
      Monitor(retryCount, progress, outcome)
    }

    /** One firing of the timer. */
    method CheckProgress(reply: QueryReply, lookup: string -> ContentReply) returns (delay: Option<nat>)
      requires outcome == Monitoring
      modifies this
      ensures (State(), delay) == Step(old(State()), taskCode, reply, lookup)
      ensures delay.None? <==> outcome != Monitoring
    {
      if reply.QueryReply? && reply.code == ProgressCode && reply.data.Some? {
        var d := reply.data.value;
        progress := ProgressOf(d);
        retryCount := 0;
        if Finished(d) {
          progress := 100;
          outcome := VideoReady(VideoUrl(d), taskCode);
          return None;
        } else if FailedStatus(d) {
          outcome := VideoFailed;
          return None;
        }
        return Some(ProgressDelay);
      } else if reply.QueryReply? && reply.code == MissingTaskCode {
        retryCount := retryCount + 1;
        if retryCount >= MaxRetries {
          outcome := DatabaseVerdict(taskCode, lookup);
          if outcome.VideoReady? {
            progress := 100;
          }
          return None;
        }
        return Some(RetryDelay);
      } else {
        retryCount := retryCount + 1;
        if retryCount >= MaxRetries {
          outcome := MonitorTimeout(if reply.QueryReply? && reply.code != ProgressCode then NoStatusText else NetworkText);
          return None;
        }
        return Some(RetryDelay);
      }
    }
  }
}
