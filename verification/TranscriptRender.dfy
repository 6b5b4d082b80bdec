/** The truncating renderer of messaging/transcript.py. Each segment has already produced its
    text, or raised (None); escaping the truncation marker gives an arbitrary string. */
module TranscriptRender {
  import opened Base

  /** Segments that raised or rendered to nothing are skipped. */
  function Shown(outputs: seq<Option<string>>): (parts: seq<string>)
    ensures forall i :: 0 <= i < |parts| ==> parts[i] != ""
  {
    if outputs == [] then []
    else
      var last := outputs[|outputs| - 1];
      Shown(outputs[..|outputs| - 1]) + if last.Some? && last.value != "" then [last.value] else []
  }

  /** "\n".join(parts) */
  function JoinLines(parts: seq<string>): string {
    if parts == [] then ""
    else if |parts| == 1 then parts[0]
    else parts[0] + "\n" + JoinLines(parts[1..])
  }

  function StatusText(status: string): string {
    if status == "" then "" else "\n\n" + status
  }

  function Whole(parts: seq<string>, status: string): string {
    JoinLines(parts) + StatusText(status)
  }

  /** The text with the oldest k segments dropped. */
  function Truncated(parts: seq<string>, k: nat, marker: string, status: string): string
    requires k <= |parts|
  {
    marker + JoinLines(parts[k..]) + StatusText(status)
  }

  function StripNewlines(s: string): (r: string)
    ensures |r| <= |s| && r == s[|s| - |r|..]
  {
    if s != "" && s[0] == '\n' then StripNewlines(s[1..]) else s
  }

  function Minimal(marker: string, status: string): string {
    marker + StripNewlines(StatusText(status))
  }

  ghost predicate Fits(parts: seq<string>, k: int, marker: string, status: string, limit: int) {
    0 <= k < |parts| && |Truncated(parts, k, marker, status)| <= limit
  }

  lemma {:induction false} JoinNonEmpty(parts: seq<string>)
    requires parts != [] && forall i :: 0 <= i < |parts| ==> parts[i] != ""
    ensures JoinLines(parts) != ""
  {
  }

  lemma {:induction false} JoinSuffix(parts: seq<string>, k: nat)
    requires k < |parts|
    ensures |JoinLines(parts[k..])| <= |JoinLines(parts)|
    ensures JoinLines(parts)[|JoinLines(parts)| - |JoinLines(parts[k..])|..] == JoinLines(parts[k..])
    ensures k > 0 ==> |JoinLines(parts[k..])| < |JoinLines(parts)|
  {
    if k == 0 {
      assert parts[0..] == parts;
    } else {
      JoinSuffix(parts[1..], k - 1);
      assert parts[1..][k - 1..] == parts[k..];
    }
  }

  /** The first fitting suffix of segments is the longest one: every other fitting suffix is
      shorter, and every longer one is too long. What is kept is a true tail of the whole. */
  lemma FirstFitIsLongest(parts: seq<string>, k: nat, marker: string, status: string, limit: int)
    requires Fits(parts, k, marker, status, limit)
    requires forall j :: 0 <= j < k ==> !Fits(parts, j, marker, status, limit)
    ensures forall j :: 0 <= j < |parts| ==> (Fits(parts, j, marker, status, limit) <==> k <= j)
    ensures var whole, kept := JoinLines(parts), JoinLines(parts[k..]);
            |kept| <= |whole| && whole[|whole| - |kept|..] == kept
  {
    JoinSuffix(parts, k);
    forall j | k <= j < |parts|
      ensures Fits(parts, j, marker, status, limit)
    {
      JoinSuffix(parts[k..], j - k);
      assert parts[k..][j - k..] == parts[j..];
    }
  }

  ghost predicate FirstFit(parts: seq<string>, k: int, marker: string, status: string, limit: int) {
    Fits(parts, k, marker, status, limit) && forall j :: 0 <= j < k ==> !Fits(parts, j, marker, status, limit)
  }

  /** What `render` returns when the whole text is too long: the longest fitting suffix of
      segments; failing that the newest segment's tail, cut to use the limit exactly; failing
      that marker and status; failing that the status alone. */
  ghost predicate TruncatedAs(parts: seq<string>, marker: string, status: string, limit: int, out: string) {
    var budget := limit - |marker| - |StatusText(status)|;
    && (forall k :: FirstFit(parts, k, marker, status, limit) ==> out == Truncated(parts, k, marker, status))
    && ((forall k :: !Fits(parts, k, marker, status, limit)) ==>
          if parts != [] && budget > 20 then
            var newest := parts[|parts| - 1];
            && |newest| > budget && |out| == limit
            && out == marker + "..." + newest[|newest| - (budget - 3)..] + StatusText(status)
          else if parts != [] && |Minimal(marker, status)| <= limit then out == Minimal(marker, status)
          else out == status)
  }

  lemma {:induction false} FirstFitExists(parts: seq<string>, j: int, marker: string, status: string, limit: int)
      returns (k: int)
    requires Fits(parts, j, marker, status, limit)
    ensures FirstFit(parts, k, marker, status, limit)
    decreases j
  {
    if exists i :: 0 <= i < j && Fits(parts, i, marker, status, limit) {
      var i :| 0 <= i < j && Fits(parts, i, marker, status, limit);
      k := FirstFitExists(parts, i, marker, status, limit);
    } else {
      k := j;
    }
  }

  /** The exact condition under which a truncated rendering keeps to the limit: the status must
      fit by itself, or the fallback of marker and stripped status must. */
  lemma LimitKeptIff(parts: seq<string>, marker: string, status: string, limit: int, out: string)
    requires |Whole(parts, status)| > limit && TruncatedAs(parts, marker, status, limit, out)
    ensures |out| <= limit <==> |status| <= limit || (parts != [] && |Minimal(marker, status)| <= limit)
  {
    if j :| Fits(parts, j, marker, status, limit) {
      var k := FirstFitExists(parts, j, marker, status, limit);
      assert out == Truncated(parts, k, marker, status);
    }
  }

  /** A status longer than the limit is returned as it is. */
  lemma LongStatusOverflows(out: string)
    requires TruncatedAs(["segment"], "...cut", "status", 5, out)
    ensures |out| > 5
  {
    LongerThanLimit("...cut", "status");
    LimitKeptIff(["segment"], "...cut", "status", 5, out);
  }

  lemma LongerThanLimit(marker: string, status: string)
    requires |marker| > 5 && |status| > 5
    ensures |Minimal(marker, status)| > 5 && |Whole(["segment"], status)| > 5
  {
  }

  lemma NothingFitsAlone(parts: seq<string>, marker: string, status: string, limit: int)
    requires parts != [] && !Fits(parts, |parts| - 1, marker, status, limit)
    ensures |parts[|parts| - 1]| > limit - |marker| - |StatusText(status)|
  {
    assert parts[|parts| - 1..] == [parts[|parts| - 1]];
  }

  /** After the loop: no suffix fits. The branch that would keep the newest segment untrimmed
      is unreachable, because that segment was just found not to fit. */
  method LastResort(rendered: seq<string>, lastPart: string, marker: string, status: string, limit: int)
      returns (out: string)
    requires rendered != [] ==> lastPart == rendered[|rendered| - 1]
    requires forall k :: !Fits(rendered, k, marker, status, limit)
    ensures TruncatedAs(rendered, marker, status, limit, out)
  {
    var statusText := if status != "" then "\n\n" + status else "";
    if rendered != [] {
      var budget := limit - |marker| - |statusText|;
      if budget > 20 {
        NothingFitsAlone(rendered, marker, status, limit);
        var tail := "..." + lastPart[|lastPart| - (budget - 3)..];
        return marker + tail + statusText;
      }
      var minimal := marker + StripNewlines(statusText);
      if |minimal| <= limit {
        return minimal;
      }
    }
    return status;
  }

  /** The dropping loop. */
  method KeepTail(rendered: seq<string>, marker: string, status: string, limit: int) returns (out: string)
    requires forall i :: 0 <= i < |rendered| ==> rendered[i] != ""
    requires |Whole(rendered, status)| > limit
    ensures TruncatedAs(rendered, marker, status, limit, out)
  {
    var statusText := if status != "" then "\n\n" + status else "";
    var parts := rendered;
    var lastPart := "";
    ghost var k := 0;
    while parts != []
      invariant k <= |rendered| && parts == rendered[k..]
      invariant forall j :: 0 <= j < k ==> !Fits(rendered, j, marker, status, limit)
      invariant k > 0 ==> lastPart == rendered[k - 1]
    {
      var body := JoinLines(parts);
      JoinNonEmpty(parts);
      var candidate := (if body != "" then marker + body else body) + statusText;
      assert candidate == Truncated(rendered, k, marker, status);
      if |candidate| <= limit {
        assert Fits(rendered, k, marker, status, limit);
        assert forall k' :: FirstFit(rendered, k', marker, status, limit) ==> k' == k;
        return candidate;
      }
      lastPart := parts[0];
      parts := parts[1..];
      k := k + 1;
    }
    out := LastResort(rendered, lastPart, marker, status, limit);
  }

  /** `render`: everything if it fits, otherwise the truncation; and when it exceeds the limit. */
  method Render(outputs: seq<Option<string>>, marker: string, status: string, limit: int) returns (out: string)
    ensures |Whole(Shown(outputs), status)| <= limit ==> out == Whole(Shown(outputs), status)
    ensures |Whole(Shown(outputs), status)| > limit ==> TruncatedAs(Shown(outputs), marker, status, limit, out)
    ensures |out| <= limit <==>
              |status| <= limit || (Shown(outputs) != [] && |Minimal(marker, status)| <= limit)
  {
    var rendered: seq<string> := [];
    for i := 0 to |outputs|
      invariant rendered == Shown(outputs[..i])
    {
      assert outputs[..i + 1][..i] == outputs[..i];
      if outputs[i].Some? && outputs[i].value != "" {
        rendered := rendered + [outputs[i].value];
      }
    }
    assert outputs[..|outputs|] == outputs;
    var candidate := JoinLines(rendered) + if status != "" then "\n\n" + status else "";
    if |candidate| <= limit {
      return candidate;
    }
    out := KeepTail(rendered, marker, status, limit);
    LimitKeptIff(rendered, marker, status, limit, out);
  }

  // Per-segment truncation: "..." + raw[-(cap - 3):] when the raw text is longer than the cap.

  /** raw[start:] with Python's treatment of negative and large starts. */
  function PySlice(raw: string, start: int): string {
    if start >= |raw| then "" else if start >= 0 then raw[start..]
    else if |raw| + start >= 0 then raw[|raw| + start..] else raw
  }

  function TailOf(raw: string, cap: Option<int>): string {
    if cap.Some? && |raw| > cap.value then "..." + PySlice(raw, -(cap.value - 3)) else raw
  }

  /** The cap is honoured exactly when nothing is cut or the cap exceeds 3, and then the result
      has the full length of the cap and ends like the text. */
  lemma TailHonoursCapIff(raw: string, cap: int)
    ensures |TailOf(raw, Some(cap))| <= cap <==> |raw| <= cap || cap > 3
    ensures |raw| > cap > 3 ==>
              var t := TailOf(raw, Some(cap));
              |t| == cap && t[..3] == "..." && t[3..] == raw[|raw| - (cap - 3)..]
  {
  }

  /** With a cap of 3 the text grows instead. */
  lemma SmallCapOverflows()
    ensures TailOf("abcd", Some(3)) == "...abcd"
  {
  }

  // What the texts mean.

  /** The segments shown keep their order: those of two runs of segments follow each other. */
  lemma {:induction false} ShownInOrder(a: seq<Option<string>>, b: seq<Option<string>>)
    ensures Shown(a + b) == Shown(a) + Shown(b)
  {
    if b == [] {
      assert a + b == a;
    } else {
      var n := |b| - 1;
      ShownInOrder(a, b[..n]);
      assert (a + b)[..|a + b| - 1] == a + b[..n] && (a + b)[|a + b| - 1] == b[n];
      var last := if b[n].Some? && b[n].value != "" then [b[n].value] else [];
      assert Shown(a + b) == Shown(a) + Shown(b[..n]) + last == Shown(a) + (Shown(b[..n]) + last);
    }
  }

  lemma ShownOne(text: Option<string>)
    ensures Shown([text]) == if text.Some? && text.value != "" then [text.value] else []
  {
    assert [text][..0] == [];
  }

  /** Joined texts are separated by one newline. */
  lemma {:induction false} JoinInOrder(a: seq<string>, b: seq<string>)
    requires a != [] && b != []
    ensures JoinLines(a + b) == JoinLines(a) + "\n" + JoinLines(b)
  {
    if |a| == 1 {
      assert (a + b)[1..] == b;
    } else {
      JoinInOrder(a[1..], b);
      assert (a + b)[1..] == a[1..] + b;
      var x, y, z := a[0] + "\n", JoinLines(a[1..]), "\n" + JoinLines(b);
      assert JoinLines(a + b) == x + (y + "\n" + JoinLines(b)) == x + y + "\n" + JoinLines(b);
    }
  }

  /** The shape of a whole text and of a cut one, on an example each. */
  lemma WholeExample()
    ensures Whole(["a", "b"], "ok") == "a\nb\n\nok"
  {
    JoinInOrder(["a"], ["b"]);
    assert ["a"] + ["b"] == ["a", "b"];
    assert "\n\n" + "ok" == "\n\nok" && "a" + "\n" + "b" == "a\nb";
  }

  lemma CutExample()
    ensures Truncated(["a", "b"], 1, "cut\n", "ok") == "cut\n" + "b" + "\n\nok"
  {
    assert ["a", "b"][1..] == ["b"];
    assert "\n\n" + "ok" == "\n\nok";
  }

  lemma MinimalExample()
    ensures Minimal("cut\n", "ok") == "cut\n" + "ok"
  {
    assert "\n\n" + "ok" == "\n\nok";
    assert "\n\nok"[1..] == "\nok" && "\nok"[1..] == "ok";
    assert StripNewlines("ok") == "ok" && StripNewlines("\nok") == "ok" && StripNewlines("\n\nok") == "ok";
  }
}
