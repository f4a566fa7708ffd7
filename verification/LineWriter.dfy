/**
 The line splitter of the container log stream.  Bytes are modelled by characters; the sink
 is the list of lines appended to it.
 */
module LineWriters {
  /** Position of the first line feed, or the length when there is none. */
  function LineFeed(data: string): (i: nat)
    ensures i <= |data|
    ensures i < |data| ==> data[i] == '\n'
    ensures forall k :: 0 <= k < i ==> data[k] != '\n'
  {
    if data == "" || data[0] == '\n' then 0
    else
      var i := LineFeed(data[1..]);
      assert forall k :: 0 < k < 1 + i ==> data[k] == data[1..][k - 1];
      1 + i
  }

  lemma LineFeedAt(data: string, i: nat)
    requires i < |data| && data[i] == '\n' && forall k :: 0 <= k < i ==> data[k] != '\n'
    ensures LineFeed(data) == i
  {
  }

  /** Drops one carriage return from the end. */
  function Chomp(line: string): string {
    if |line| > 0 && line[|line| - 1] == '\r' then line[..|line| - 1] else line
  }

  /** The terminated lines of a text, and what follows its last line feed. */
  function Lines(s: string): seq<string>
    decreases |s|
  {
    var i := LineFeed(s);
    if i == |s| then [] else [Chomp(s[..i])] + Lines(s[i + 1..])
  }

  function Rest(s: string): string
    decreases |s|
  {
    var i := LineFeed(s);
    if i == |s| then s else Rest(s[i + 1..])
  }

  /** The reference: every terminated line, then a non-empty remainder as it is. */
  function Split(s: string): seq<string> {
    Lines(s) + if Rest(s) == "" then [] else [Rest(s)]
  }

  /** The terminated lines before their carriage returns are dropped. */
  function RawLines(s: string): seq<string>
    decreases |s|
  {
    var i := LineFeed(s);
    if i == |s| then [] else [s[..i]] + RawLines(s[i + 1..])
  }

  function Unlines(lines: seq<string>): string {
    if lines == [] then "" else lines[0] + "\n" + Unlines(lines[1..])
  }

  predicate Chomped(lines: seq<string>, raw: seq<string>) {
    && |lines| == |raw|
    && forall k :: 0 <= k < |raw| ==> lines[k] == Chomp(raw[k]) && '\n' !in raw[k]
  }

  lemma ChompedMore(line: string, lines: seq<string>, raw: seq<string>)
    requires Chomped(lines, raw) && '\n' !in line
    ensures Chomped([Chomp(line)] + lines, [line] + raw)
  {
    hide Chomp;
    forall k | 0 <= k < |raw| + 1
      ensures ([Chomp(line)] + lines)[k] == Chomp(([line] + raw)[k]) && '\n' !in ([line] + raw)[k]
    {
      if k > 0 { assert ([Chomp(line)] + lines)[k] == lines[k - 1] && ([line] + raw)[k] == raw[k - 1]; }
    }
  }

  lemma LinesUnfold(s: string, i: nat)
    requires i == LineFeed(s) < |s|
    ensures Lines(s) == [Chomp(s[..i])] + Lines(s[i + 1..]) && RawLines(s) == [s[..i]] + RawLines(s[i + 1..])
    ensures Rest(s) == Rest(s[i + 1..]) && '\n' !in s[..i]
  {
    hide Chomp;
  }

  lemma ChompedStep(s: string, i: nat)
    requires i == LineFeed(s) < |s| && Chomped(Lines(s[i + 1..]), RawLines(s[i + 1..]))
    ensures Chomped(Lines(s), RawLines(s))
  {
    hide LineFeed, Chomp, Chomped, Lines, RawLines;
    LinesUnfold(s, i);
    ChompedMore(s[..i], Lines(s[i + 1..]), RawLines(s[i + 1..]));
  }

  /** Nothing is lost or invented: the raw lines and the remainder spell the text, and none holds a line feed. */
  lemma {:induction false} SplitLosesNothing(s: string)
    ensures Unlines(RawLines(s)) + Rest(s) == s
    ensures Chomped(Lines(s), RawLines(s)) && '\n' !in Rest(s)
    decreases |s|
  {
    hide LineFeed, Chomp;
    var i := LineFeed(s);
    if i < |s| {
      SplitLosesNothing(s[i + 1..]);
      var raw, head, tail := RawLines(s[i + 1..]), s[..i] + "\n", s[i + 1..];
      assert RawLines(s)[1..] == raw;
      assert head + Unlines(raw) + Rest(tail) == head + (Unlines(raw) + Rest(tail));
      assert s == head + tail;
      ChompedStep(s, i);
    } else {
      assert Unlines([]) + s == s;
    }
  }

  /** A line is its raw line, less one carriage return at the end if there is one. */
  lemma LinesLoseOneReturn(s: string, k: nat)
    requires k < |RawLines(s)|
    ensures k < |Lines(s)|
    ensures var raw := RawLines(s)[k];
      Lines(s)[k] == if raw != "" && raw[|raw| - 1] == '\r' then raw[..|raw| - 1] else raw
  {
    hide Lines, RawLines;
    SplitLosesNothing(s);
  }

  function LineFeeds(s: string): nat {
    if s == "" then 0 else LineFeeds(s[1..]) + if s[0] == '\n' then 1 else 0
  }

  lemma {:induction false} FeedsBefore(s: string, i: nat)
    requires i < |s| && s[i] == '\n' && forall k :: 0 <= k < i ==> s[k] != '\n'
    ensures LineFeeds(s) == 1 + LineFeeds(s[i + 1..])
    decreases i
  {
    if i > 0 {
      FeedsBefore(s[1..], i - 1);
      assert s[1..][i..] == s[i + 1..];
    }
  }

  lemma {:induction false} NoFeeds(s: string)
    requires forall k :: 0 <= k < |s| ==> s[k] != '\n'
    ensures LineFeeds(s) == 0
    decreases |s|
  {
    if s != "" { NoFeeds(s[1..]); }
  }

  /** One line per line feed, and one for what follows the last line feed, exactly if anything does. */
  lemma {:induction false} LinesCounted(s: string)
    ensures |Split(s)| == LineFeeds(s) + if s == "" || s[|s| - 1] == '\n' then 0 else 1
    ensures Split(s) == Lines(s) + if s == "" || s[|s| - 1] == '\n' then [] else [Rest(s)]
    decreases |s|
  {
    hide LineFeed, Chomp;
    var i := LineFeed(s);
    if i < |s| {
      LinesCounted(s[i + 1..]);
      FeedsBefore(s, i);
    } else {
      NoFeeds(s);
      if s != "" { assert s[|s| - 1] != '\n'; }
    }
  }

  /** Text may be fed in two parts: only the unfinished line of the first matters for the second. */
  lemma {:induction false} LinesConcat(a: string, b: string)
    ensures Lines(a + b) == Lines(a) + Lines(Rest(a) + b)
    ensures Rest(a + b) == Rest(Rest(a) + b)
    decreases |a|
  {
    hide LineFeed, Chomp, Lines, Rest, RawLines;
    var i := LineFeed(a);
    if i < |a| {
      LineFeedAt(a + b, i);
      assert (a + b)[..i] == a[..i] && (a + b)[i + 1..] == a[i + 1..] + b;
      LinesUnfold(a, i);
      LinesUnfold(a + b, i);
      LinesConcat(a[i + 1..], b);
    } else {
      NothingToUnfold(a);
    }
  }

  lemma NothingToUnfold(s: string)
    requires LineFeed(s) == |s|
    ensures Lines(s) == [] && Rest(s) == s
  {
  }

  lemma NoLineFeed(s: string)
    ensures '\n' !in s <==> LineFeed(s) == |s|
    ensures '\n' !in s ==> Lines(s) == [] && Rest(s) == s
  {
    if '\n' in s {
      var k :| 0 <= k < |s| && s[k] == '\n';
    }
  }

  function Flatten(chunks: seq<string>): string {
    if chunks == [] then "" else Flatten(chunks[..|chunks| - 1]) + chunks[|chunks| - 1]
  }

  class LineWriter {
    var buf: string
    var sink: seq<string>
    var closed: bool
    /** Every byte accepted before Close. */
    ghost var accepted: string

    ghost predicate Valid()
      reads this
    {
      if closed then buf == "" && sink == Split(accepted)
      else buf == Rest(accepted) && sink == Lines(accepted)
    }

    constructor ()
      ensures Valid() && !closed && accepted == "" && sink == []
    {
      buf, sink, closed, accepted := "", [], false, "";
    }

    method FlushLines(flushPartial: bool)
      modifies `buf, `sink
      ensures sink == old(sink) + if flushPartial then Split(old(buf)) else Lines(old(buf))
      ensures buf == if flushPartial then "" else Rest(old(buf))
    {
      hide LineFeed;
      while true
        invariant old(sink) + Lines(old(buf)) == sink + Lines(buf)
        invariant Rest(old(buf)) == Rest(buf)
        decreases |buf|
      {
        var data := buf;
        var idx := LineFeed(data);
        if idx == |data| {
          assert sink + Lines(buf) == sink;
          assert old(sink) + Split(old(buf)) == old(sink) + Lines(old(buf)) + if data == "" then [] else [data];
          if flushPartial && |data| > 0 {
            sink := sink + [data];
            buf := "";
          }
          return;
        }
        var line := data[..idx];
        if |line| > 0 && line[|line| - 1] == '\r' {
          line := line[..|line| - 1];
        }
        sink := sink + [line];
        buf := data[idx + 1..];
      }
    }

    /** A closed writer swallows the bytes. */
    method Write(p: string) returns (n: nat)
      requires Valid()
      modifies this
      ensures Valid() && n == |p| && closed == old(closed)
      ensures accepted == if closed then old(accepted) else old(accepted) + p
      ensures closed ==> sink == old(sink)
    {
      if closed {
        return |p|;
      }
      LinesConcat(accepted, p);
      buf := buf + p;
      FlushLines(false);
      accepted := accepted + p;
      return |p|;
    }

    method Close()
      requires Valid()
      modifies this
      ensures Valid() && closed && accepted == old(accepted)
      ensures old(closed) ==> sink == old(sink)
    {
      if closed {
        return;
      }
      closed := true;
      SplitLosesNothing(accepted);
      NoLineFeed(buf);
      FlushLines(true);
    }
  }

  /** One stream of `StreamLogs`: however the bytes are cut into writes, the lines are those of the whole text. */
  method CopyAll(chunks: seq<string>) returns (lines: seq<string>)
    ensures lines == Split(Flatten(chunks))
  {
    var w := new LineWriter();
    for k := 0 to |chunks|
      invariant w.Valid() && !w.closed && w.accepted == Flatten(chunks[..k])
    {
      assert chunks[..k + 1][..k] == chunks[..k];
      var _ := w.Write(chunks[k]);
    }
    assert chunks[..|chunks|] == chunks;
    w.Close();
    lines := w.sink;
  }
}
