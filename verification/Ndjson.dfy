/** The text of one month file: events written one per line, and the two ways of getting
    them back - splitting the whole file, and reading it backwards in fixed-size chunks
    (event-log/tail.ts and search.ts hold one copy of that loop each). */
module Ndjson {
  import opened Options

  /** One row of the log; `detail` is the JSON text of the detail object, empty for null. */
  datatype DeviceEvent = DeviceEvent(at: string, kind: string, summary: string, detail: string)

  /** JSON as a library: `parse` is safeParse (None: not an event), `encode` is JSON.stringify. */
  datatype Codec = Codec(encode: DeviceEvent -> string, parse: string -> Option<DeviceEvent>) {
    /** Section 7 of RFC 8259: control characters are escaped, so no raw newline. */
    ghost predicate Sound() {
      forall e :: parse(encode(e)) == Some(e) && '\n' !in encode(e) && encode(e) != ""
    }
  }

  type Filter = DeviceEvent -> bool

  // ---- whole-file reading: the reference ------------------------------------------

  function Prepend(c: char, lines: seq<string>): (r: seq<string>)
    requires |lines| >= 1
    ensures |r| >= 1
  {
    if c == '\n' then [""] + lines else [[c] + lines[0]] + lines[1..]
  }

  /** text.split('\n') */
  function Split(s: string): (lines: seq<string>)
    ensures |lines| >= 1
  {
    if s == [] then [""] else Prepend(s[0], Split(s[1..]))
  }

  /** The event a line contributes, if any. */
  function EventOn(codec: Codec, keep: Filter, line: string): Option<DeviceEvent> {
    if line == "" then None
    else match codec.parse(line)
      case None => None
      case Some(e) => if keep(e) then Some(e) else None
  }

  /** The wanted events of some lines, last line first. */
  function Newest(codec: Codec, keep: Filter, lines: seq<string>): seq<DeviceEvent> {
    if lines == [] then []
    else
      var older := Newest(codec, keep, lines[..|lines| - 1]);
      match EventOn(codec, keep, lines[|lines| - 1])
      case None => older
      case Some(e) => [e] + older
  }

  function Take<T>(s: seq<T>, n: int): seq<T> {
    if n <= 0 then [] else if n >= |s| then s else s[..n]
  }

  lemma {:induction false} SplitOneLine(s: string)
    requires '\n' !in s
    ensures Split(s) == [s]
  {
    if s != [] {
      SplitOneLine(s[1..]);
      assert s == [s[0]] + s[1..];
    }
  }

  lemma {:induction false} LinesHaveNoNewline(s: string)
    ensures forall line :: line in Split(s) ==> '\n' !in line
  {
    if s != [] { LinesHaveNoNewline(s[1..]); }
  }

  lemma PrependConcat(c: char, a: seq<string>, b: seq<string>)
    requires |a| >= 1
    ensures Prepend(c, a + b) == Prepend(c, a) + b
  {
    assert (a + b)[1..] == a[1..] + b;
  }

  /** The heart of the chunked reader: splitting a text can be resumed from the first line
      of any tail of it, which is exactly what the reader holds back. */
  lemma {:induction false} SplitResumes(head: string, tail: string)
    ensures Split(head + tail) == Split(head + Split(tail)[0]) + Split(tail)[1..]
  {
    hide Prepend;
    var lines := Split(tail);
    if head == [] {
      LinesHaveNoNewline(tail);
      SplitOneLine(lines[0]);
      assert head + tail == tail && head + lines[0] == lines[0];
    } else {
      SplitResumes(head[1..], tail);
      assert (head + tail)[1..] == head[1..] + tail;
      assert (head + lines[0])[1..] == head[1..] + lines[0];
      PrependConcat(head[0], Split(head[1..] + lines[0]), lines[1..]);
    }
  }

  lemma {:induction false} NewestConcat(codec: Codec, keep: Filter, a: seq<string>, b: seq<string>)
    ensures Newest(codec, keep, a + b) == Newest(codec, keep, b) + Newest(codec, keep, a)
  {
    if b == [] {
      assert a + b == a;
    } else {
      var n := |b| - 1;
      assert (a + b)[..|a + b| - 1] == a + b[..n] && (a + b)[|a + b| - 1] == b[n];
      NewestConcat(codec, keep, a, b[..n]);
    }
  }

  lemma TakeConcat<T>(a: seq<T>, b: seq<T>, n: int)
    ensures Take(a + b, n) == Take(a, n) + Take(b, n - |Take(a, n)|)
  {
  }

  lemma TakeNone<T>(s: seq<T>, n: int)
    requires n <= 0 || s == []
    ensures Take(s, n) == []
  {
  }

  // ---- the backward reader ----------------------------------------------------------

  /** The inner loop: the lines of one chunk from the last to the first, stopping at the limit. */
  method CollectLines(codec: Codec, keep: Filter, lines: seq<string>, limit: nat, found: seq<DeviceEvent>)
    returns (out: seq<DeviceEvent>)
    requires |found| < limit
    ensures out == found + Take(Newest(codec, keep, lines), limit - |found|)
  {
    hide Take, EventOn, Newest;
    out := found;
    var i := |lines|;
    ghost var goal := found + Take(Newest(codec, keep, lines), limit - |found|);
    assert lines[..i] == lines;
    while i > 0
      invariant 0 <= i <= |lines| && |out| < limit
      invariant goal == out + Take(Newest(codec, keep, lines[..i]), limit - |out|)
    {
      ghost var older := Newest(codec, keep, lines[..i - 1]);
      LastLine(codec, keep, lines[..i]);
      i := i - 1;
      assert lines[..i + 1][..i] == lines[..i];
      var event := EventOn(codec, keep, lines[i]);
      if event.Some? {
        TakeFirst(event.value, older, limit - |out|);
        assert goal == (out + [event.value]) + Take(older, limit - |out| - 1);
        out := out + [event.value];
        if |out| >= limit {
          TakeNone(older, limit - |out|);
          return;
        }
      }
    }
    assert lines[..0] == [];
    LastLine(codec, keep, []);
    TakeNone<DeviceEvent>([], limit - |out|);
  }

  lemma LastLine(codec: Codec, keep: Filter, lines: seq<string>)
    ensures lines == [] ==> Newest(codec, keep, lines) == []
    ensures lines != [] ==>
      var older := Newest(codec, keep, lines[..|lines| - 1]);
      match EventOn(codec, keep, lines[|lines| - 1])
      case None => Newest(codec, keep, lines) == older
      case Some(e) => Newest(codec, keep, lines) == [e] + older
  {
  }

  lemma TakeFirst<T>(x: T, s: seq<T>, n: int)
    requires n >= 1
    ensures Take([x] + s, n) == [x] + Take(s, n - 1)
  {
  }

  /** What reading one chunk leaves to be read: the file before it and the held-back line. */
  lemma ChunkRead(codec: Codec, keep: Filter, before: string, text: string, n: int)
    ensures
      var lines := if before == "" then Split(text) else Split(text)[1..];
      var leftover := if before == "" then "" else Split(text)[0];
      var got := Take(Newest(codec, keep, lines), n);
      Take(Newest(codec, keep, Split(before + text)), n)
      == got + Take(Newest(codec, keep, Split(before + leftover)), n - |got|)
  {
    hide Split, Newest, Take;
    if before == "" {
      assert before + text == text && before + "" == "";
      NothingLeft(codec, keep);
      TakeConcat(Newest(codec, keep, Split(text)), [], n);
      assert Newest(codec, keep, Split(text)) + [] == Newest(codec, keep, Split(text));
    } else {
      SplitResumes(before, text);
      NewestConcat(codec, keep, Split(before + Split(text)[0]), Split(text)[1..]);
      TakeConcat(Newest(codec, keep, Split(text)[1..]), Newest(codec, keep, Split(before + Split(text)[0])), n);
    }
  }

  lemma NothingLeft(codec: Codec, keep: Filter)
    ensures Newest(codec, keep, Split("")) == []
  {
    assert Split("") == [""] && [""][..0] == [];
  }

  /** Reads `content` from its end in pieces of `chunk` characters, appending wanted events
      to `found` until it holds `limit` of them. Equal, for every chunk size, to splitting
      the whole file and taking its last wanted lines. */
  method ReadBackwards(codec: Codec, keep: Filter, content: string, chunk: nat, limit: int,
                       found: seq<DeviceEvent>)
    returns (out: seq<DeviceEvent>)
    requires chunk >= 1
    ensures out == found + Take(Newest(codec, keep, Split(content)), limit - |found|)
  {
    hide Split, Newest, EventOn, Take;
    out := found;
    var pos := |content|;
    var leftover := "";
    ghost var goal := found + Take(Newest(codec, keep, Split(content)), limit - |found|);
    assert content[..pos] + leftover == content;
    while pos > 0 && |out| < limit
      invariant 0 <= pos <= |content|
      invariant pos == 0 ==> leftover == ""
      invariant goal == out + Take(Newest(codec, keep, Split(content[..pos] + leftover)), limit - |out|)
    {
      var take := if chunk < pos then chunk else pos;
      pos := pos - take;
      var text := content[pos..pos + take] + leftover;
      assert content[..pos + take] + leftover == content[..pos] + text;
      ChunkRead(codec, keep, content[..pos], text, limit - |out|);
      var lines := Split(text);
      if pos > 0 {
        leftover := lines[0];
        lines := lines[1..];
      } else {
        leftover := "";
      }
      out := CollectLines(codec, keep, lines, limit, out);
    }
    if pos == 0 {
      assert content[..pos] + leftover == "";
      NothingLeft(codec, keep);
    }
    TakeNone(Newest(codec, keep, Split(content[..pos] + leftover)), limit - |out|);
  }
}
