/** The model cards (client/src/components/model-grid.tsx): the relative
    creation date, the labels chosen by the model's type and status, and
    the confirmation before a delete. The clock is the parameter `now` and
    the confirmation dialog's answer the parameter `confirmed`. */
module ModelGrid {
  import opened Wrappers
  import Strs

  const DayMs: nat := 1000 * 60 * 60 * 24

  /** What `formatDate` shows: a text, or the date in the browser's
      locale (`toLocaleDateString()`, not modelled further). */
  datatype DateLabel = Text(text: string) | LocaleDate

  /** `Math.ceil(a / b)` for a non-negative `a`. */
  function CeilDiv(a: nat, b: nat): (r: nat)
    requires b > 0
    ensures (r - 1) * b < a <= r * b || (a == 0 && r == 0)
  {
    (a + b - 1) / b
  }

  function Abs(x: int): nat { if x < 0 then -x else x }

  /** The whole days (rounded up) between `now` and `created`, both in
      milliseconds; past and future count alike. */
  function DiffDays(created: int, now: int): nat
  {
    CeilDiv(Abs(now - created), DayMs)
  }

  /** `formatDate(date)`: "未知" without a date; then "今天" for one day,
      "昨天" for two, "{n}天前" up to seven (0 included), "{w}週前" up to
      thirty, the locale date beyond. */
  function FormatDate(date: Option<int>, now: int): (r: DateLabel)
    ensures date.None? ==> r == Text("未知")
    ensures date.Some? && DiffDays(date.value, now) > 30 ==> r == LocaleDate
  {
    if date.None? then Text("未知")
    else
      var n := DiffDays(date.value, now);
      if n == 1 then Text("今天")
      else if n == 2 then Text("昨天")
      else if n <= 7 then Text(Strs.NatToString(n) + "天前")
      else if n <= 30 then Text(Strs.NatToString(CeilDiv(n, 7)) + "週前")
      else LocaleDate
  }

  /** The label by elapsed time: any instant within the last day is
      "today", within the day before that "yesterday", and the very same
      instant counts zero days. */
  lemma DateLabelByElapsed(created: int, now: int)
    ensures now == created ==> FormatDate(Some(created), now) == Text("0天前")
    ensures 0 < Abs(now - created) <= DayMs ==> FormatDate(Some(created), now) == Text("今天")
    ensures DayMs < Abs(now - created) <= 2 * DayMs ==> FormatDate(Some(created), now) == Text("昨天")
    ensures 30 * DayMs < Abs(now - created) ==> FormatDate(Some(created), now) == LocaleDate
  {
    var a := Abs(now - created);
    var n := DiffDays(created, now);
    if now == created {
      assert n == 0;
    }
    if 0 < a <= DayMs {
      assert n == 1;
    }
    if DayMs < a <= 2 * DayMs {
      assert n == 2;
    }
  }

  /** The label counts whole weeks between 2 and 5 in the "weeks" range. */
  lemma WeeksRange(n: nat)
    requires 8 <= n <= 30
    ensures 2 <= CeilDiv(n, 7) <= 5
  {
  }

  /** A date as far in the future as another is in the past gets the same
      label. */
  lemma FormatDateSymmetric(now: int, x: int)
    ensures FormatDate(Some(now + x), now) == FormatDate(Some(now - x), now)
  {
    assert Abs(now - (now + x)) == Abs(now - (now - x));
  }

  /** Icon, colour, type text and the two button captions of a card. */
  datatype ModelIcon = MicOff | UserCircle
  datatype TypeLabels = TypeLabels(icon: ModelIcon, bgColor: string, typeText: string, testCaption: string, useCaption: string)

  /** All of them follow one test: is the type "voice"? */
  function LabelsFor(modelType: string): (r: TypeLabels)
    ensures r.typeText == "聲音" <==> modelType == "voice"
    ensures r.typeText == "人物" <==> modelType != "voice"
    ensures r.icon == MicOff <==> modelType == "voice"
  {
    if modelType == "voice" then
      TypeLabels(MicOff, "bg-gradient-to-br from-blue-400 to-blue-600", "聲音", "測試", "使用")
    else
      TypeLabels(UserCircle, "bg-gradient-to-br from-green-400 to-green-600", "人物", "預覽", "製作影片")
  }

  /** Every type other than "voice" is shown as a character. */
  lemma NonVoiceTypesAlike(a: string, b: string)
    requires a != "voice" && b != "voice"
    ensures LabelsFor(a) == LabelsFor(b)
  {
  }

  /** The status badge: none for a ready model; "訓練中..." in yellow while
      training; "訓練失敗" in red for every other status. */
  function StatusBadge(status: string): (r: Option<(string, string)>)
    ensures r.None? <==> status == "ready"
    ensures r.Some? ==> (r.value.0 == "訓練中..." <==> status == "training")
    ensures r.Some? && status != "training" ==> r.value == ("訓練失敗", "bg-red-100 text-red-700")
  {
    if status == "ready" then None
    else if status == "training" then Some(("訓練中...", "bg-yellow-100 text-yellow-700"))
    else Some(("訓練失敗", "bg-red-100 text-red-700"))
  }

  /** `handleDeleteModel`: the id sent in a DELETE request, if any. */
  function DeleteRequest(id: int, confirmed: bool): (r: Option<int>)
    ensures r.Some? <==> confirmed
    ensures r.Some? ==> r.value == id
  {
    if confirmed then Some(id) else None
  }
}
