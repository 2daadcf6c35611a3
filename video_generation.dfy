/** The video generation panel (client/src/components/video-generation.tsx):
    the checks before a request and `pollProgress`, the 3-second interval
    that queries the video task. Each call of `Tick` is one firing of the
    interval; it returns whether the interval was cleared. The replies are
    parameters. */
module VideoGeneration {
  import opened Wrappers
  import Strs

  // ---------------------------------------------------------------------
  // Request validation

  const NoTextTitle := "請輸入文字內容"
  const NoModelTitle := "請選擇人物模型"

  /** `handleGenerateVideo`'s checks: the error toast title, or `None` when
      the request is sent. The text is checked after trimming, and before
      the model. */
  function RequestError(textInput: string, selectedModel: string): (r: Option<string>)
    ensures r.None? <==> (!Strs.IsBlank(textInput) && selectedModel != "")
    ensures Strs.IsBlank(textInput) ==> r == Some(NoTextTitle)
    ensures !Strs.IsBlank(textInput) && selectedModel == "" ==> r == Some(NoModelTitle)
  {
    if Strs.Trim(textInput) == "" then Some(NoTextTitle)
    else if selectedModel == "" then Some(NoModelTitle)
    else None
  }

  /** A text of blanks is refused even with a model chosen. */
  lemma BlankTextRefused(text: string, model: string)
    requires forall i :: 0 <= i < |text| ==> Strs.IsSpace(text[i])
    ensures RequestError(text, model) == Some(NoTextTitle)
  {
    Strs.BlankIffAllSpace(text);
  }

  // ---------------------------------------------------------------------
  // Progress polling

  /** `result.data` of a query reply. */
  datatype VideoData = VideoData(videoUrl: Option<string>)

  /** One `/api/video/query` call: it threw, or it returned a code, maybe
      `data`, and maybe `msg`. */
  datatype QueryReply = QueryThrew | QueryReply(code: int, data: Option<VideoData>, msg: Option<string>)

  /** Where polling stands. `Completed` carries `data.video_url`;
      `CompletedUnread` is a 10000 reply without `data`: the interval is
      cleared and the bar set to 100 before reading the URL throws. */
  datatype Outcome = Polling | Completed(videoUrl: Option<string>) | CompletedUnread | Failed(description: string)

  /** The panel's state: `generationProgress` and the outcome;
      `isGenerating` is true exactly while `Polling`. */
  datatype PollState = PollState(progress: int, outcome: Outcome)

  const DoneCode := 10000
  const WorkingCode := 10001
  const MissingTaskCode := 10004
  const ProgressCap := 90
  const ProgressStep := 5
  /** Milliseconds between queries. */
  const PollInterval: nat := 3000

  const BusyText := "Face2Face 服務忙碌中，請稍後重試"
  const DefaultErrorText := "生成過程中發生錯誤"

  /** `Math.min(prev + 5, 90)`. */
  function Advance(prev: int): (p: int)
    ensures p <= ProgressCap
    ensures prev + ProgressStep <= ProgressCap ==> p == prev + ProgressStep
    ensures prev + ProgressStep > ProgressCap ==> p == ProgressCap
  {
    if prev + ProgressStep < ProgressCap then prev + ProgressStep else ProgressCap
  }

  /** One firing of the interval: the new state and whether the interval
      is cleared. A thrown request is only logged. */
  function Step(s: PollState, reply: QueryReply): (r: (PollState, bool))
    requires s.outcome == Polling
    ensures r.1 <==> r.0.outcome != Polling
  {
    match reply
    case QueryThrew => (s, false)
    case QueryReply(code, data, msg) =>
      if code == DoneCode then
        if data.None? then (PollState(100, CompletedUnread), true)
        else (PollState(100, Completed(data.value.videoUrl)), true)
      else if code == WorkingCode then (s.(progress := Advance(s.progress)), false)
      else if code == MissingTaskCode then (s.(outcome := Failed(BusyText)), true)
      else (s.(outcome := Failed(if Truthy(msg) then msg.value else DefaultErrorText)), true)
  }

  /** A 10000 reply is the only one that completes, and it shows 100; every
      code but 10000 and 10001 fails with the busy text for 10004 and the
      reply's message (or a default) otherwise; a throw changes nothing. */
  lemma StepOutcomes(s: PollState, reply: QueryReply)
    requires s.outcome == Polling
    ensures var r := Step(s, reply);
      ((r.0.outcome.Completed? || r.0.outcome.CompletedUnread?) <==> (reply.QueryReply? && reply.code == DoneCode))
      && (r.0.outcome.Completed? || r.0.outcome.CompletedUnread? ==> r.0.progress == 100)
      && (r.0.outcome.Failed? <==> (reply.QueryReply? && reply.code != DoneCode && reply.code != WorkingCode))
      && (reply.QueryReply? && reply.code == MissingTaskCode ==> r.0.outcome == Failed(BusyText))
      && (reply.QueryThrew? ==> r == (s, false))
  {
  }

  /** The bar stays within 0..90 while polling. */
  predicate Valid(s: PollState)
  {
    s.outcome == Polling ==> 0 <= s.progress <= ProgressCap
  }

  lemma StepKeepsValid(s: PollState, reply: QueryReply)
    requires s.outcome == Polling && Valid(s)
    ensures Valid(Step(s, reply).0)
  {
  }

  /** Polling over a stream of replies; replies after the interval is
      cleared are never requested. */
  function Run(s: PollState, replies: seq<QueryReply>): (r: PollState)
    ensures s.outcome != Polling ==> r == s
    decreases |replies|
  {
    if replies == [] || s.outcome != Polling then s
    else Run(Step(s, replies[0]).0, replies[1..])
  }

  /** Only a 10000 reply takes the bar past 90: from the start (0), the
      bar stays within 0..90 for as long as polling goes on. */
  lemma {:induction false} RunKeepsValid(s: PollState, replies: seq<QueryReply>)
    requires Valid(s)
    ensures Valid(Run(s, replies))
    decreases |replies|
  {
    if replies != [] && s.outcome == Polling {
      StepKeepsValid(s, replies[0]);
      RunKeepsValid(Step(s, replies[0]).0, replies[1..]);
    }
  }

  /** After `k` "still working" replies from the start the bar shows
      `min(5k, 90)`. */
  lemma {:induction false} WorkingProgress(k: nat)
    ensures var r := Run(PollState(0, Polling), seq(k, _ => QueryReply(WorkingCode, None, None)));
      r.outcome == Polling
      && r.progress == if ProgressStep * k < ProgressCap then ProgressStep * k else ProgressCap
  {
    if k > 0 {
      var w := QueryReply(WorkingCode, None, None);
      var ws := seq(k, _ => w);
      var ws' := seq(k - 1, _ => w);
      WorkingProgress(k - 1);
      RunSnoc(PollState(0, Polling), ws', w);
      assert ws' + [w] == ws;
    }
  }

  /** Running one more reply after a stream. */
  lemma {:induction false} RunSnoc(s: PollState, replies: seq<QueryReply>, last: QueryReply)
    ensures var r := Run(s, replies);
      Run(s, replies + [last]) == if r.outcome == Polling then Step(r, last).0 else r
    decreases |replies|
  {
    if replies != [] && s.outcome == Polling {
      assert (replies + [last])[1..] == replies[1..] + [last];
      RunSnoc(Step(s, replies[0]).0, replies[1..], last);
    }
  }

  /** Errors never stop the interval: a stream of throws leaves the state
      as it was, still polling. */
  lemma {:induction false} ThrowsKeepPolling(s: PollState, replies: seq<QueryReply>)
    requires s.outcome == Polling
    requires forall i :: 0 <= i < |replies| ==> replies[i].QueryThrew?
    ensures Run(s, replies) == s
    decreases |replies|
  {
    if replies != [] {
      assert forall i :: 0 <= i < |replies[1..]| ==> replies[1..][i] == replies[i + 1];
      ThrowsKeepPolling(s, replies[1..]);
    }
  }

  /** The panel's polling state, updated by each interval firing. */
  class ProgressPoller {
    var progress: int
    var outcome: Outcome

    /** The mutation's success handler: polling starts from 0. */
    constructor ()
      ensures progress == 0 && outcome == Polling
    {
      progress := 0;
      outcome := Polling;
    }

    function State(): PollState
      reads this
    {
      PollState(progress, outcome)
    }

    /** One firing of the interval; `cleared` says whether it stops. */
    method Tick(reply: QueryReply) returns (cleared: bool)
      requires outcome == Polling
      modifies this
      ensures (State(), cleared) == Step(old(State()), reply)
      ensures old(Valid(State())) ==> Valid(State())
    {
      if Valid(State()) {
        StepKeepsValid(State(), reply);
      }
      if reply.QueryThrew? {
        return false;
      }
      if reply.code == DoneCode {
        cleared := true;
        progress := 100;
        outcome := if reply.data.None? then CompletedUnread else Completed(reply.data.value.videoUrl);
      } else if reply.code == WorkingCode {
        cleared := false;
        progress := Advance(progress);
      } else {
        cleared := true;
        outcome := Failed(if reply.code == MissingTaskCode then BusyText
                          else if Truthy(reply.msg) then reply.msg.value else DefaultErrorText);
      }
    }
  }
}
