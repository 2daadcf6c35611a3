/** The gallery page (client/src/pages/gallery.tsx): the list shown is the
    fetched content followed by four sample items, filtered by type and
    search term and sorted by the chosen key; durations and statuses are
    turned into labels. The clock (`Date.now()`) is the parameter `now`. */
module Gallery {
  import opened Wrappers
  import Strs
  import Sorting

  /** The fields of a generated-content record the page reads; `createdAt`
      in milliseconds since the epoch, `duration` in seconds. */
  datatype Content = Content(id: int, kind: string, inputText: string, status: string,
                             duration: Option<int>, createdAt: int)

  const HourMs := 60 * 60 * 1000

  /** The four sample items appended to the fetched content. */
  function MockContent(now: int): (r: seq<Content>)
    ensures |r| == 4
  {
    [ Content(1, "audio", "歡迎來到我們的AI模特工作室，這裡有最先進的語音合成技術。", "completed", Some(15), now - 2 * HourMs),
      Content(2, "video", "大家好！今天我們要介紹最新的產品功能，讓我來為大家詳細解說。", "completed", Some(45), now - 5 * HourMs),
      Content(3, "audio", "感謝您的收聽，我們下次再見。記得關注我們的頻道獲取更多精彩內容。", "completed", Some(12), now - 24 * HourMs),
      Content(4, "video", "這是一個演示視頻，展示我們的AI角色如何進行自然的對話和表達。", "generating", None, now - 30 * 60 * 1000) ]
  }

  /** `[...content, ...mockContent]`. */
  function AllContent(fetched: seq<Content>, now: int): (r: seq<Content>)
    ensures |r| == |fetched| + 4 && r[..|fetched|] == fetched
  {
    fetched + MockContent(now)
  }

  /** The filter's test: the type matches unless the filter is "all", and
      the text holds the search term regardless of letter case (an empty
      term matches everything). */
  predicate Keep(item: Content, filterType: string, searchTerm: string)
  {
    (filterType == "all" || item.kind == filterType)
    && (searchTerm == "" || Strs.Contains(Strs.ToLower(item.inputText), Strs.ToLower(searchTerm)))
  }

  /** `allContent.filter(...)`: the items kept, in their order. */
  function Filter(items: seq<Content>, filterType: string, searchTerm: string): (r: seq<Content>)
    ensures |r| <= |items|
    ensures forall x :: x in r <==> x in items && Keep(x, filterType, searchTerm)
  {
    if items == [] then []
    else
      var rest := Filter(items[1..], filterType, searchTerm);
      assert forall x :: x in items <==> x == items[0] || x in items[1..];
      if Keep(items[0], filterType, searchTerm) then [items[0]] + rest else rest
  }

  /** With the "all" filter and no search term every item is shown. */
  lemma {:induction false} FilterKeepsAll(items: seq<Content>)
    ensures Filter(items, "all", "") == items
  {
    if items != [] {
      FilterKeepsAll(items[1..]);
    }
  }

  /** Filtering keeps the relative order: a sub-sequence of the input. */
  predicate SubsequenceOf(r: seq<Content>, s: seq<Content>)
    decreases |s|
  {
    r == [] || (s != [] && ((r[0] == s[0] && SubsequenceOf(r[1..], s[1..])) || SubsequenceOf(r, s[1..])))
  }

  lemma {:induction false} FilterKeepsOrder(items: seq<Content>, filterType: string, searchTerm: string)
    ensures SubsequenceOf(Filter(items, filterType, searchTerm), items)
  {
    if items != [] {
      FilterKeepsOrder(items[1..], filterType, searchTerm);
    }
  }

  function CreatedAt(c: Content): int { c.createdAt }
  function Newness(c: Content): int { -c.createdAt }
  /** `b.duration || 0`, negated for the descending order. */
  function DurationOr0(c: Content): int { if c.duration.Some? then c.duration.value else 0 }
  function Shortness(c: Content): int { -DurationOr0(c) }

  /** The comparator chosen by `sortBy`, as a stable sort; an unknown key
      compares everything as equal and keeps the order. */
  function SortContent(items: seq<Content>, sortBy: string): (r: seq<Content>)
    ensures multiset(r) == multiset(items)
  {
    if sortBy == "newest" then Sorting.SortBy(items, Newness)
    else if sortBy == "oldest" then Sorting.SortBy(items, CreatedAt)
    else if sortBy == "duration" then Sorting.SortBy(items, Shortness)
    else items
  }

  /** The order of the sorted list, field by field. */
  lemma SortOrder(items: seq<Content>, sortBy: string)
    ensures var r := SortContent(items, sortBy);
      (sortBy == "newest" ==> forall i, j :: 0 <= i < j < |r| ==> r[i].createdAt >= r[j].createdAt)
      && (sortBy == "oldest" ==> forall i, j :: 0 <= i < j < |r| ==> r[i].createdAt <= r[j].createdAt)
      && (sortBy == "duration" ==> forall i, j :: 0 <= i < j < |r| ==> DurationOr0(r[i]) >= DurationOr0(r[j]))
      && (sortBy !in {"newest", "oldest", "duration"} ==> r == items)
  {
    var r := SortContent(items, sortBy);
    if sortBy == "newest" {
      assert forall i, j :: 0 <= i < j < |r| ==> Newness(r[i]) <= Newness(r[j]);
    } else if sortBy == "duration" {
      assert forall i, j :: 0 <= i < j < |r| ==> Shortness(r[i]) <= Shortness(r[j]);
    } else if sortBy == "oldest" {
      assert forall i, j :: 0 <= i < j < |r| ==> CreatedAt(r[i]) <= CreatedAt(r[j]);
    }
  }

  /** `filteredContent`: the kept items in the chosen order. */
  function FilteredContent(fetched: seq<Content>, now: int, filterType: string, searchTerm: string, sortBy: string): (r: seq<Content>)
    ensures |r| <= |fetched| + 4
    ensures forall x :: x in r <==> x in AllContent(fetched, now) && Keep(x, filterType, searchTerm)
  {
    var kept := Filter(AllContent(fetched, now), filterType, searchTerm);
    var r := SortContent(kept, sortBy);
    assert forall x :: x in r <==> x in multiset(r);
    assert |r| == |multiset(r)| == |kept|;
    r
  }

  // ---------------------------------------------------------------------
  // Counts

  /** `allContent.filter(c => c.type === kind).length`. */
  function CountKind(items: seq<Content>, kind: string): (n: nat)
    ensures n <= |items|
  {
    if items == [] then 0
    else CountKind(items[1..], kind) + if items[0].kind == kind then 1 else 0
  }

  /** The audio and video counts never exceed the total. */
  lemma {:induction false} KindCountsBounded(items: seq<Content>)
    ensures CountKind(items, "audio") + CountKind(items, "video") <= |items|
  {
    if items != [] {
      KindCountsBounded(items[1..]);
    }
  }

  lemma {:induction false} CountKindAppend(a: seq<Content>, b: seq<Content>, kind: string)
    ensures CountKind(a + b, kind) == CountKind(a, kind) + CountKind(b, kind)
  {
    if a != [] {
      assert (a + b)[0] == a[0];
      assert (a + b)[1..] == a[1..] + b;
      CountKindAppend(a[1..], b, kind);
    } else {
      assert a + b == b;
    }
  }

  /** The samples add two audio and two video items to the counts. */
  lemma MockCounts(fetched: seq<Content>, now: int)
    ensures CountKind(AllContent(fetched, now), "audio") == CountKind(fetched, "audio") + 2
    ensures CountKind(AllContent(fetched, now), "video") == CountKind(fetched, "video") + 2
  {
    var m := MockContent(now);
    CountKindAppend(fetched, m, "audio");
    CountKindAppend(fetched, m, "video");
    assert m[3..][1..] == [];
    assert m[2..][1..] == m[3..] && m[1..][1..] == m[2..] && m[1..] == m[1..];
    assert CountKind(m[3..], "audio") == 0 && CountKind(m[3..], "video") == 1;
    assert CountKind(m[2..], "audio") == 1 && CountKind(m[2..], "video") == 1;
    assert CountKind(m[1..], "audio") == 1 && CountKind(m[1..], "video") == 2;
  }

  // ---------------------------------------------------------------------
  // Labels

  const PendingText := "生成中..."

  /** JavaScript's `%` on integers: the sign follows the dividend. */
  function JsRem(a: int, b: int): (r: int)
    requires b > 0
    ensures a >= 0 ==> r == a % b
    ensures a < 0 ==> r == -((-a) % b)
  {
    if a >= 0 then a % b else -((-a) % b)
  }

  /** `formatDuration`: absent or zero is "still generating"; a minute or
      more is `m:ss`; less is `{s}秒`. */
  function FormatDuration(seconds: Option<int>): (r: string)
    ensures seconds.None? || seconds.value == 0 ==> r == PendingText
  {
    if seconds.None? || seconds.value == 0 then PendingText
    else
      var s := seconds.value;
      var mins := s / 60;
      if mins > 0 then Strs.NatToString(mins) + ":" + Strs.PadTwo(Strs.NatToString(JsRem(s, 60)))
      else Strs.IntToString(JsRem(s, 60)) + "秒"
  }

  /** Two-digit rendering of a number below 100 (`padStart(2, '0')`). */
  lemma TwoDigits(x: nat)
    requires x < 100
    ensures Strs.PadTwo(Strs.NatToString(x)) == [Strs.DigitChar(x / 10), Strs.DigitChar(x % 10)]
  {
    if x >= 10 {
      assert Strs.NatToString(x / 10) == [Strs.DigitChar(x / 10)];
    }
  }

  lemma DigitCharInjective(a: nat, b: nat)
    requires a < 10 && b < 10 && Strs.DigitChar(a) == Strs.DigitChar(b)
    ensures a == b
  {
  }

  /** The two rendering shapes: `m:ss` for a minute or more, with `ss` the
      seconds past the minute; `{s}秒` below. */
  lemma DurationShape(s: int)
    requires s > 0
    ensures s >= 60 ==> (FormatDuration(Some(s))
      == Strs.NatToString(s / 60) + ":" + [Strs.DigitChar(s % 60 / 10), Strs.DigitChar(s % 60 % 10)])
    ensures s < 60 ==> FormatDuration(Some(s)) == Strs.NatToString(s) + "秒"
    ensures var t := FormatDuration(Some(s)); |t| > 0 && (t[|t| - 1] == '秒' <==> s < 60)
  {
    if s >= 60 {
      TwoDigits(s % 60);
    }
  }

  /** Different positive durations get different labels. */
  lemma FormatDurationInjective(a: int, b: int)
    requires a > 0 && b > 0
    requires FormatDuration(Some(a)) == FormatDuration(Some(b))
    ensures a == b
  {
    var t := FormatDuration(Some(a));
    DurationShape(a);
    DurationShape(b);
    if a >= 60 && b >= 60 {
      MinutesEqual(a / 60, b / 60, t);
      var k := |Strs.NatToString(a / 60)|;
      assert t[k + 1..] == [Strs.DigitChar(a % 60 / 10), Strs.DigitChar(a % 60 % 10)];
      assert t[k + 1..] == [Strs.DigitChar(b % 60 / 10), Strs.DigitChar(b % 60 % 10)];
      DigitCharInjective(a % 60 / 10, b % 60 / 10);
      DigitCharInjective(a % 60 % 10, b % 60 % 10);
    } else if a < 60 && b < 60 {
      assert t[..|t| - 1] == Strs.NatToString(a);
      assert t[..|t| - 1] == Strs.NatToString(b);
      Strs.NatToStringInjective(a, b);
    }
  }

  /** The minutes before the ':' determine each other. */
  lemma MinutesEqual(m: nat, n: nat, t: string)
    requires exists u :: t == Strs.NatToString(m) + ":" + u
    requires exists v :: t == Strs.NatToString(n) + ":" + v
    ensures m == n
  {
    var u :| t == Strs.NatToString(m) + ":" + u;
    var v :| t == Strs.NatToString(n) + ":" + v;
    var p := Strs.NatToString(m);
    var q := Strs.NatToString(n);
    ColonAfterDigits(p, u, q, v);
    assert p == t[..|p|] == q;
    Strs.NatToStringInjective(m, n);
  }

  /** A ':' after a run of digits marks where the run ends. */
  lemma ColonAfterDigits(p: string, u: string, q: string, v: string)
    requires forall i :: 0 <= i < |p| ==> IsDigitChar(p[i])
    requires forall i :: 0 <= i < |q| ==> IsDigitChar(q[i])
    requires p + ":" + u == q + ":" + v
    ensures |p| == |q|
  {
    var t := p + ":" + u;
    assert forall i :: 0 <= i < |p| ==> t[i] == p[i];
    assert t == q + ":" + v;
    assert forall i :: 0 <= i < |q| ==> t[i] == q[i];
    assert t[|p|] == ':' && t[|q|] == ':';
  }

  predicate IsDigitChar(c: char) { '0' <= c <= '9' }

  const CompletedColor := "bg-green-100 text-green-700"
  const GeneratingColor := "bg-yellow-100 text-yellow-700"
  const FailedColor := "bg-red-100 text-red-700"
  const UnknownColor := "bg-gray-100 text-gray-700"

  function StatusColor(status: string): (r: string)
    ensures r == UnknownColor <==> status !in {"completed", "generating", "failed"}
  {
    if status == "completed" then CompletedColor
    else if status == "generating" then GeneratingColor
    else if status == "failed" then FailedColor
    else UnknownColor
  }

  function StatusText(status: string): (r: string)
    ensures r == "未知" <==> status !in {"completed", "generating", "failed"}
  {
    if status == "completed" then "已完成"
    else if status == "generating" then "生成中"
    else if status == "failed" then "失敗"
    else "未知"
  }

  /** The colour and the text pick the same case: each known status has
      its own colour and text, everything else the grey "未知". */
  lemma StatusLabelsAgree(a: string, b: string)
    ensures StatusColor(a) == StatusColor(b) <==> StatusText(a) == StatusText(b)
  {
  }
}
