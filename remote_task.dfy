/** The remote video-task client (`HeyGemAPIClient`): upload naming,
    submission result mapping, the status query and the bounded poller
    `wait_for_completion`. */
module RemoteTask {
  import opened Wrappers
  import opened Strs

  /** Configuration values the client reads. */
  const PollInterval: nat := 2
  const Timeout: nat := 1200

  /** `max_attempts = timeout // poll_interval`. */
  const MaxAttempts: nat := Timeout / PollInterval

  /** The code every successful reply of the video service carries. */
  const CodeOk: int := 10000

  // ---------------------------------------------------------------------
  // Upload and submit

  /** An uploaded file object: its `name` attribute if it has one, and
      whether reading it and writing the copy into shared storage succeed. */
  datatype UploadInput = UploadInput(name: Option<string>, ioOk: bool)

  /** `_upload_file`: the copy is named `{uuid}{ext}`, keeping the file's
      extension or defaulting to `.wav` for audio and `.mp4` otherwise, and
      is addressed as `/code/shared/{uuid}{ext}`; any failure gives None. */
  function UploadFile(file: UploadInput, fileType: string, uuid: string): (r: Option<string>)
    ensures r.Some? <==> file.ioOk
    ensures r.Some? ==> "/code/shared/" + uuid <= r.value
    ensures r.Some? && file.name.Some? && Extname(file.name.value) != [] ==>
      r.value == "/code/shared/" + uuid + Extname(file.name.value)
    ensures r.Some? && (file.name.None? || Extname(file.name.value) == []) ==>
      r.value == "/code/shared/" + uuid + (if fileType == "audio" then ".wav" else ".mp4")
  {
    var ext := if file.name.Some? then Extname(file.name.value) else "";
    var ext' := if ext != "" then ext else if fileType == "audio" then ".wav" else ".mp4";
    if file.ioOk then Some("/code/shared/" + uuid + ext') else None
  }

  /** The JSON body of the submission. */
  datatype SubmitBody = SubmitBody(audioUrl: string, videoUrl: string, code: string, chaofen: int, watermarkSwitch: int, pn: int)

  datatype SubmitReply =
    | SubmitTransportError(reason: string)
    | SubmitHttp(status: int, code: Option<int>, msg: Option<string>)

  /** A `(success, message, value)` triple as the client methods return it. */
  datatype Outcome = Outcome(success: bool, message: string, value: Option<string>)

  /** `upload_files_and_submit`: both files are uploaded (a task code is
      drawn first), then the body is posted; only reply code 10000 yields
      that task code. */
  function UploadFilesAndSubmit(audio: UploadInput, video: UploadInput, taskCode: string,
                                audioUuid: string, videoUuid: string, reply: SubmitReply): (r: Outcome)
    ensures !audio.ioOk || !video.ioOk ==> r == Outcome(false, "文件上傳失敗", None)
    ensures r.success <==> audio.ioOk && video.ioOk && reply.SubmitHttp? && reply.status == 200 && reply.code == Some(CodeOk)
    ensures r.success ==> r == Outcome(true, "任務提交成功", Some(taskCode))
    ensures !r.success ==> r.value.None?
    ensures audio.ioOk && video.ioOk && reply.SubmitHttp? && reply.status != 200 ==>
      r.message == "HTTP錯誤: " + IntToString(reply.status)
  {
    var audioUrl := UploadFile(audio, "audio", audioUuid);
    var videoUrl := UploadFile(video, "video", videoUuid);
    if audioUrl.None? || videoUrl.None? then Outcome(false, "文件上傳失敗", None)
    else
      match reply
      case SubmitTransportError(e) => Outcome(false, "錯誤: " + e, None)
      case SubmitHttp(status, code, msg) =>
        if status != 200 then Outcome(false, "HTTP錯誤: " + IntToString(status), None)
        else if code == Some(CodeOk) then Outcome(true, "任務提交成功", Some(taskCode))
        else Outcome(false, if msg.Some? then msg.value else "任務提交失敗", None)
  }

  /** The body posted for a successful upload pair. */
  function SubmitBodyFor(audioUrl: string, videoUrl: string, taskCode: string): (b: SubmitBody)
    ensures b.code == taskCode && b.chaofen == 0 && b.watermarkSwitch == 0 && b.pn == 1
    ensures b.audioUrl == audioUrl && b.videoUrl == videoUrl
  {
    SubmitBody(audioUrl, videoUrl, taskCode, 0, 0, 1)
  }

  // ---------------------------------------------------------------------
  // Status query and polling

  /** The `data` object of a status reply; absent fields are None. */
  datatype TaskData = TaskData(status: Option<int>, progress: Option<int>, msg: Option<string>, result: Option<string>)

  /** A decoded status reply: `code`, `msg` and `data` (absent `data` reads
      as an empty object). */
  datatype StatusBody = StatusBody(code: Option<int>, msg: Option<string>, data: TaskData)

  datatype QueryReply =
    | QueryTransportError(reason: string)
    | QueryHttp(status: int, body: StatusBody)

  /** `check_task_status`: (True, "查詢成功", body) on HTTP 200, otherwise a
      failure with the status or the exception text. */
  function CheckTaskStatus(reply: QueryReply): (r: (bool, string, Option<StatusBody>))
    ensures r.0 <==> reply.QueryHttp? && reply.status == 200
    ensures r.0 ==> r.1 == "查詢成功" && r.2 == Some(reply.body)
    ensures !r.0 ==> r.2.None?
    ensures reply.QueryHttp? && reply.status != 200 ==> r.1 == "HTTP錯誤: " + IntToString(reply.status)
  {
    match reply
    case QueryTransportError(e) => (false, "錯誤: " + e, None)
    case QueryHttp(status, body) =>
      if status == 200 then (true, "查詢成功", Some(body)) else (false, "HTTP錯誤: " + IntToString(status), None)
  }

  /** The arguments of one progress callback. */
  datatype Progress = Progress(progress: int, msg: string)

  /** What the loop body decides on one reply. */
  datatype Decision = Pending | Finished(outcome: Outcome)

  /** The callback arguments a reply produces: only code-10000 replies
      report, with progress defaulting to 0 and msg to "". */
  function ReportOf(reply: QueryReply): (p: Option<Progress>)
    ensures p.Some? <==> reply.QueryHttp? && reply.status == 200 && reply.body.code == Some(CodeOk)
  {
    var q := CheckTaskStatus(reply);
    if q.0 && q.2.value.code == Some(CodeOk) then
      var d := q.2.value.data;
      Some(Progress(if d.progress.Some? then d.progress.value else 0, if d.msg.Some? then d.msg.value else ""))
    else None
  }

  /** The decision on one reply, for a service reachable at `host`. */
  function Decide(reply: QueryReply, host: string): (d: Decision)
    ensures !CheckTaskStatus(reply).0 ==> d == Finished(Outcome(false, "狀態查詢失敗: " + CheckTaskStatus(reply).1, None))
    ensures d.Finished? && d.outcome.success <==>
      reply.QueryHttp? && reply.status == 200 && reply.body.code == Some(CodeOk)
      && reply.body.data.status == Some(2) && Truthy(reply.body.data.result)
    ensures d.Finished? && d.outcome.success ==>
      d.outcome == Outcome(true, "任務完成", Some("http://" + host + ":8383" + reply.body.data.result.value))
    ensures d.Pending? <==>
      reply.QueryHttp? && reply.status == 200 && reply.body.code == Some(CodeOk)
      && reply.body.data.status != Some(2) && reply.body.data.status != Some(3)
  {
    var q := CheckTaskStatus(reply);
    if !q.0 then Finished(Outcome(false, "狀態查詢失敗: " + q.1, None))
    else
      var body := q.2.value;
      if body.code != Some(CodeOk) then
        Finished(Outcome(false, "API錯誤: " + (if body.msg.Some? then body.msg.value else "未知錯誤"), None))
      else
        var d := body.data;
        if d.status == Some(2) then
          if Truthy(d.result) then Finished(Outcome(true, "任務完成", Some("http://" + host + ":8383" + d.result.value)))
          else Finished(Outcome(false, "任務完成但沒有結果URL", None))
        else if d.status == Some(3) then
          Finished(Outcome(false, "任務失敗: " + (if d.msg.Some? then d.msg.value else ""), None))
        else Pending
  }

  /** The callback arguments of the first `n` replies, in order. */
  function ReportsUpTo(replies: nat -> QueryReply, n: nat): (r: seq<Progress>)
    ensures |r| <= n
  {
    if n == 0 then []
    else
      var p := ReportOf(replies(n - 1));
      ReportsUpTo(replies, n - 1) + (if p.Some? then [p.value] else [])
  }

  /** `wait_for_completion`: `replies(k)` is the answer to the k-th status
      query. At most `MaxAttempts` queries are made; a failed query, an API
      error code, status 2 or status 3 ends the wait, every other status
      polls again. With a callback, every code-10000 reply is reported
      before its status is examined. */
  method WaitForCompletion(replies: nat -> QueryReply, host: string, hasCallback: bool)
    returns (r: Outcome, reports: seq<Progress>, queries: nat)
    ensures 1 <= queries <= MaxAttempts && MaxAttempts == 600
    ensures forall k: nat :: k + 1 < queries ==> Decide(replies(k), host).Pending?
    ensures Decide(replies(queries - 1), host).Finished? ==> r == Decide(replies(queries - 1), host).outcome
    ensures Decide(replies(queries - 1), host).Pending? ==>
      queries == MaxAttempts && r == Outcome(false, "任務超時", None)
    ensures reports == if hasCallback then ReportsUpTo(replies, queries) else []
  {
    var attempts := 0;
    reports := [];
    while attempts < MaxAttempts
      invariant 0 <= attempts <= MaxAttempts
      invariant forall k: nat :: k < attempts ==> Decide(replies(k), host).Pending?
      invariant reports == if hasCallback then ReportsUpTo(replies, attempts) else []
    {
      var reply := replies(attempts);
      var report := ReportOf(reply);
      if hasCallback && report.Some? {
        reports := reports + [report.value];
      }
      var d := Decide(reply, host);
      if d.Finished? {
        return d.outcome, reports, attempts + 1;
      }
      attempts := attempts + 1;
    }
    r := Outcome(false, "任務超時", None);
    queries := attempts;
  }
}
