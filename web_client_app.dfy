/** The checks of the Streamlit client (V/web-client/app.py) that are not
    page layout: `validate_file`, which vets an upload before it is sent,
    and the windowing of its task history shown in the sidebar. */
module WebClientApp {
  import opened Wrappers
  import Strs

  /** What `validate_file` reads of an uploaded file. */
  datatype Upload = Upload(name: string, size: nat)

  /** One entry of the session's task history. */
  datatype Task = Task(timestamp: string, status: string, message: string, resultUrl: Option<string>)

  /** `APP_CONFIG` values the validation uses (V/web-client/config.py). */
  const MaxFileSize: nat := 100 * 1024 * 1024
  const AudioFormats := [".wav", ".mp3", ".m4a"]
  const VideoFormats := [".mp4", ".avi", ".mov"]
  /** How many history entries are shown. */
  const HistoryWindow: nat := 10

  const NoFileMessage := "請上傳文件"
  const PassedMessage := "文件驗證通過"

  /** The message of an oversized file; the limit is printed in whole MiB. */
  function TooLargeMessage(): (m: string)
    ensures m == "文件大小超過限制 (100MB)"
  {
    "文件大小超過限制 (" + Strs.NatToString(MaxFileSize / (1024 * 1024)) + "MB)"
  }

  /** The message of a file whose extension is not in `formats`. */
  function UnsupportedMessage(formats: seq<string>): string
  {
    "不支持的文件格式。支持的格式: " + Strs.Join(formats, ", ")
  }

  /** The formats a `file_type` is checked against: audio for "audio",
      video for every other value. */
  function FormatsFor(fileType: string): (r: seq<string>)
    ensures fileType == "audio" ==> r == AudioFormats
    ensures fileType != "audio" ==> r == VideoFormats
  {
    if fileType == "audio" then AudioFormats else VideoFormats
  }

  /** `os.path.splitext(name)[1].lower()`. */
  function Extension(name: string): string
  {
    Strs.ToLower(Strs.Extname(name))
  }

  /** `validate_file(uploaded_file, file_type)`: the flag and the message. */
  function ValidateFile(file: Option<Upload>, fileType: string): (r: (bool, string))
    ensures file.None? ==> r == (false, NoFileMessage)
    ensures file.Some? && file.value.size > MaxFileSize ==> r == (false, TooLargeMessage())
    ensures file.Some? && file.value.size <= MaxFileSize && Extension(file.value.name) !in FormatsFor(fileType) ==>
      r == (false, UnsupportedMessage(FormatsFor(fileType)))
    ensures r.0 <==> (file.Some? && file.value.size <= MaxFileSize
                      && Extension(file.value.name) in FormatsFor(fileType))
    ensures r.0 ==> r.1 == PassedMessage
  {
    if file.None? then (false, NoFileMessage)
    else if file.value.size > MaxFileSize then (false, TooLargeMessage())
    else
      var formats := FormatsFor(fileType);
      if Extension(file.value.name) !in formats then (false, UnsupportedMessage(formats))
      else (true, PassedMessage)
  }

  /** The size check comes first: an oversized file gets the size message
      whatever its name and the requested type. */
  lemma SizeBeforeFormat(name: string, size: nat, fileType: string, name': string, fileType': string)
    requires size > MaxFileSize
    ensures ValidateFile(Some(Upload(name, size)), fileType)
         == ValidateFile(Some(Upload(name', size)), fileType')
         == (false, "文件大小超過限制 (100MB)")
  {
  }

  /** A file of exactly the limit is accepted, one byte more is not. */
  lemma LimitIsInclusive(name: string, fileType: string)
    requires Extension(name) in FormatsFor(fileType)
    ensures ValidateFile(Some(Upload(name, MaxFileSize)), fileType) == (true, PassedMessage)
    ensures ValidateFile(Some(Upload(name, MaxFileSize + 1)), fileType).0 == false
  {
  }

  /** The sidebar's entries: `reversed(task_history[-10:])`, each with the
      number printed in its heading (`len(task_history) - i`). */
  function HistoryView(history: seq<Task>): (r: seq<(nat, Task)>)
    ensures |r| == if |history| < HistoryWindow then |history| else HistoryWindow
    ensures forall i :: 0 <= i < |r| ==>
      1 <= r[i].0 <= |history| && r[i].0 == |history| - i && r[i].1 == history[r[i].0 - 1]
  {
    var n := if |history| < HistoryWindow then |history| else HistoryWindow;
    seq(n, i requires 0 <= i < n => (|history| - i, history[|history| - 1 - i]))
  }

  /** A new task heads the view, numbered after all earlier ones, and
      pushes the oldest shown entry out once the window is full. */
  lemma {:induction false} HistoryPush(history: seq<Task>, t: Task)
    ensures var r := HistoryView(history + [t]);
      r[0] == (|history| + 1, t)
      && r[1..] == HistoryView(history)[..|r| - 1]
  {
    var h' := history + [t];
    var r := HistoryView(h');
    var old_ := HistoryView(history);
    assert |r| - 1 <= |old_|;
    forall i | 0 <= i < |r| - 1
      ensures r[1..][i] == old_[i]
    {
      assert h'[|h'| - 1 - (i + 1)] == history[|history| - 1 - i];
    }
  }

  /** A task falls out of view once ten newer tasks have been added. */
  lemma OlderTasksHidden(history: seq<Task>, newer: seq<Task>)
    requires |newer| >= HistoryWindow
    ensures forall e :: e in HistoryView(history + newer) ==> e.0 > |history|
  {
  }
}
