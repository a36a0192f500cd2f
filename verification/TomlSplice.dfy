/** Cutting one table, and every table below it, out of a configuration file. */
module TomlSplice {

  datatype Option<+T> = None | Some(value: T)

  type Byte = b: int | 0 <= b < 256
  type Bytes = seq<Byte>

  const NEWLINE: Byte := 10

  /** A table header: its key and where the key begins. */
  datatype Header = Header(key: seq<string>, offset: nat)

  datatype Range = Range(start: nat, end: nat)

  /** The first byte after the last newline before `offset`. */
  function LineStart(content: Bytes, offset: nat): (r: nat)
    requires offset <= |content|
    ensures r <= offset
  {
    if offset == 0 || content[offset - 1] == 10 then offset else LineStart(content, offset - 1)
  }

  lemma {:induction false} LineStartMeans(content: Bytes, offset: nat)
    requires offset <= |content|
    ensures forall k :: LineStart(content, offset) <= k < offset ==> content[k] != 10
    ensures LineStart(content, offset) > 0 ==> content[LineStart(content, offset) - 1] == 10
  {
    if offset > 0 && content[offset - 1] != 10 { LineStartMeans(content, offset - 1); }
  }

  /** A parser meets headers in the order of the file. */
  ghost predicate Ordered(content: Bytes, headers: seq<Header>) {
    && (forall i :: 0 <= i < |headers| ==> headers[i].offset <= |content|)
    && (forall i, j :: 0 <= i < j < |headers| ==> headers[i].offset <= headers[j].offset)
  }

  /** Where the block of a header begins; past the last one, the end of the file. */
  function Line(content: Bytes, headers: seq<Header>, i: nat): (r: nat)
    requires i <= |headers| && forall k :: 0 <= k < |headers| ==> headers[k].offset <= |content|
    ensures r <= |content|
  {
    if i < |headers| then LineStart(content, headers[i].offset) else |content|
  }

  lemma LinesIncrease(content: Bytes, headers: seq<Header>, i: nat, j: nat)
    requires Ordered(content, headers) && i <= j <= |headers|
    ensures Line(content, headers, i) <= Line(content, headers, j)
  {
    if i < j < |headers| {
      NoLineBetween(content, headers[i].offset, headers[j].offset);
    }
  }

  lemma NoLineBetween(content: Bytes, a: nat, b: nat)
    requires a <= b <= |content|
    ensures LineStart(content, a) <= LineStart(content, b)
    ensures LineStart(content, a) < LineStart(content, b) ==> a < LineStart(content, b)
  {
    LineStartMeans(content, a);
    LineStartMeans(content, b);
  }

  predicate Under(prefix: seq<string>, key: seq<string>) { prefix <= key }

  /** What is in front of block `i`, less the blocks under the prefix. */
  ghost function Kept(content: Bytes, headers: seq<Header>, prefix: seq<string>, i: nat): Bytes
    requires Ordered(content, headers) && i <= |headers|
  {
    if i == 0 then content[..Line(content, headers, 0)]
    else Kept(content, headers, prefix, i - 1) +
         (if Under(prefix, headers[i - 1].key) then [] else Block(content, headers, i - 1))
  }

  /** From the line of a header to the line of the next one. */
  ghost function Block(content: Bytes, headers: seq<Header>, i: nat): Bytes
    requires Ordered(content, headers) && i < |headers|
  {
    LinesIncrease(content, headers, i, i + 1);
    content[Line(content, headers, i)..Line(content, headers, i + 1)]
  }

  ghost predicate Apart(ranges: seq<Range>, upTo: nat) {
    && (forall k :: 0 <= k < |ranges| ==> ranges[k].start <= ranges[k].end <= upTo)
    && (forall k, l :: 0 <= k < l < |ranges| ==> ranges[k].end <= ranges[l].start)
  }

  /** The first `upTo` bytes without the ranges. */
  ghost function Cut(content: Bytes, ranges: seq<Range>, upTo: nat): Bytes
    requires Apart(ranges, upTo) && upTo <= |content|
  {
    if ranges == [] then content[..upTo]
    else
      var last := ranges[|ranges| - 1];
      Cut(content, ranges[..|ranges| - 1], last.start) + content[last.end..upTo]
  }

  lemma CutOn(content: Bytes, ranges: seq<Range>, a: nat, b: nat)
    requires Apart(ranges, a) && a <= b <= |content|
    ensures Apart(ranges, b) && Cut(content, ranges, b) == Cut(content, ranges, a) + content[a..b]
  {
    if ranges == [] {
      assert content[..b] == content[..a] + content[a..b];
    } else {
      var last := ranges[|ranges| - 1];
      assert content[last.end..b] == content[last.end..a] + content[a..b];
    }
  }

  lemma CutClosed(content: Bytes, ranges: seq<Range>, start: nat, end: nat, b: nat)
    requires Apart(ranges, start) && start <= end <= b <= |content|
    ensures Apart(ranges + [Range(start, end)], b)
    ensures Cut(content, ranges + [Range(start, end)], b) == Cut(content, ranges, start) + content[end..b]
  {
    assert (ranges + [Range(start, end)])[..|ranges|] == ranges;
  }

  method FindLineStart(content: Bytes, offset: nat) returns (r: nat)
    requires offset <= |content|
    ensures r == LineStart(content, offset)
  {
    r := offset;
    while r > 0 && content[r - 1] != NEWLINE
      invariant r <= offset && LineStart(content, r) == LineStart(content, offset)
    {
      r := r - 1;
    }
  }

  /** The ranges of adjacent blocks under the prefix, merged. */
  method FindRanges(content: Bytes, headers: seq<Header>, prefix: seq<string>) returns (ranges: seq<Range>)
    requires Ordered(content, headers)
    ensures Apart(ranges, |content|) && Cut(content, ranges, |content|) == Kept(content, headers, prefix, |headers|)
  {
    assert Apart([], Line(content, headers, 0)) &&
           Cut(content, [], Line(content, headers, 0)) == Kept(content, headers, prefix, 0);
    hide LineStart, Cut, Apart;
    ranges := [];
    var start: int := -1;
    for i := 0 to |headers|
      invariant start <= Line(content, headers, i)
      invariant var at := if start < 0 then Line(content, headers, i) else start;
                Apart(ranges, at) && Cut(content, ranges, at) == Kept(content, headers, prefix, i)
    {
      var lineStart := FindLineStart(content, headers[i].offset);
      LinesIncrease(content, headers, i, i + 1);
      var key := headers[i].key;
      if |key| >= |prefix| && key[..|prefix|] == prefix {
        if start < 0 { start := lineStart; }
      } else if start >= 0 {
        CutClosed(content, ranges, start, lineStart, Line(content, headers, i + 1));
        ranges := ranges + [Range(start, lineStart)];
        start := -1;
      } else {
        CutOn(content, ranges, lineStart, Line(content, headers, i + 1));
      }
    }
    if start >= 0 {
      CutClosed(content, ranges, start, |content|, |content|);
      ranges := ranges + [Range(start, |content|)];
    }
  }

  method CopyAround(content: Bytes, ranges: seq<Range>) returns (out: Bytes)
    requires Apart(ranges, |content|)
    ensures out == Cut(content, ranges, |content|)
  {
    assert Apart(ranges[..0], 0) && Cut(content, ranges[..0], 0) == [] && (|ranges| > 0 ==> 0 <= ranges[0].start);
    assert ranges[..|ranges|] == ranges;
    hide Cut, Apart;
    out := [];
    var offset := 0;
    for k := 0 to |ranges|
      invariant 0 <= offset <= |content| && (k < |ranges| ==> offset <= ranges[k].start <= |content|)
      invariant Apart(ranges[..k], offset) && Cut(content, ranges[..k], offset) == out
    {
      CutNext(content, ranges, k, offset);
      out := out + content[offset..ranges[k].start];
      offset := ranges[k].end;
    }
    CutOn(content, ranges, offset, |content|);
    out := out + content[offset..];
  }

  lemma CutNext(content: Bytes, ranges: seq<Range>, k: nat, offset: nat)
    requires Apart(ranges, |content|) && k < |ranges| && Apart(ranges[..k], offset) && offset <= ranges[k].start
    ensures offset <= ranges[k].start <= ranges[k].end <= |content|
    ensures k + 1 < |ranges| ==> ranges[k].end <= ranges[k + 1].start <= |content|
    ensures Apart(ranges[..k + 1], ranges[k].end)
    ensures Cut(content, ranges[..k + 1], ranges[k].end) ==
            Cut(content, ranges[..k], offset) + content[offset..ranges[k].start]
  {
    CutOn(content, ranges[..k], offset, ranges[k].start);
    CutClosed(content, ranges[..k], ranges[k].start, ranges[k].end, ranges[k].end);
    assert ranges[..k + 1] == ranges[..k] + [Range(ranges[k].start, ranges[k].end)];
  }

  /** The file without the table; an unparsable file is an error. */
  method RemoveTable(content: Bytes, parsed: Option<seq<Header>>, prefix: seq<string>) returns (out: Option<Bytes>)
    requires parsed.Some? ==> Ordered(content, parsed.value)
    ensures out == if parsed.None? then None else Some(Kept(content, parsed.value, prefix, |parsed.value|))
  {
    if parsed.None? { return None; }
    var ranges := FindRanges(content, parsed.value, prefix);
    if |ranges| == 0 {
      assert content[..|content|] == content;
      return Some(content);
    }
    var rest := CopyAround(content, ranges);
    out := Some(rest);
  }

  // ----- what removal means -----

  /** Nothing is lost in blocks: a file none of whose tables is under the prefix stays as it is. */
  lemma {:induction false} NothingToRemove(content: Bytes, headers: seq<Header>, prefix: seq<string>, i: nat)
    requires Ordered(content, headers) && i <= |headers|
    requires forall k :: 0 <= k < i ==> !Under(prefix, headers[k].key)
    ensures Kept(content, headers, prefix, i) == content[..Line(content, headers, i)]
  {
    hide LineStart, Line;
    if i > 0 {
      NothingToRemove(content, headers, prefix, i - 1);
      LinesIncrease(content, headers, i - 1, i);
      Joined(content, Line(content, headers, i - 1), Line(content, headers, i));
    }
  }

  lemma Joined(content: Bytes, a: nat, b: nat)
    requires a <= b <= |content|
    ensures content[..b] == content[..a] + content[a..b]
  {
  }

  /** Headers stand on lines of their own. */
  ghost predicate OnOwnLines(content: Bytes, headers: seq<Header>)
    requires Ordered(content, headers)
  {
    forall i :: 0 < i < |headers| ==> Line(content, headers, i - 1) < Line(content, headers, i)
  }

  /** The headers of the blocks that stay, where they stand afterwards. */
  ghost function Survivors(content: Bytes, headers: seq<Header>, prefix: seq<string>, i: nat): seq<Header>
    requires Ordered(content, headers) && i <= |headers|
  {
    if i == 0 then []
    else Survivors(content, headers, prefix, i - 1) +
         (if Under(prefix, headers[i - 1].key) then []
          else [Header(headers[i - 1].key,
                       |Kept(content, headers, prefix, i - 1)| + headers[i - 1].offset -
                       Line(content, headers, i - 1))])
  }

  lemma {:induction false} SurvivorsStandInOrder(content: Bytes, headers: seq<Header>, prefix: seq<string>, i: nat)
    requires Ordered(content, headers) && OnOwnLines(content, headers) && i <= |headers|
    ensures Ordered(Kept(content, headers, prefix, i), Survivors(content, headers, prefix, i))
    ensures NoneUnder(prefix, Survivors(content, headers, prefix, i))
  {
    hide Line, LineStart, Ordered, NoneUnder, Under, OnOwnLines, Block;
    if i == 0 {
      NoSurvivor(Kept(content, headers, prefix, 0), prefix);
    } else {
      SurvivorsStandInOrder(content, headers, prefix, i - 1);
      var shift := HeaderInBlock(content, headers, i - 1);
      var kept, left := Kept(content, headers, prefix, i - 1), Survivors(content, headers, prefix, i - 1);
      if Under(prefix, headers[i - 1].key) {
        assert kept + [] == kept && left + [] == left;
      } else {
        OneMoreSurvivor(kept, Block(content, headers, i - 1), left, headers[i - 1].key, shift, prefix);
      }
    }
  }

  lemma NoSurvivor(kept: Bytes, prefix: seq<string>)
    ensures Ordered(kept, []) && NoneUnder(prefix, [])
  {
  }

  ghost predicate NoneUnder(prefix: seq<string>, headers: seq<Header>) {
    forall k :: 0 <= k < |headers| ==> !Under(prefix, headers[k].key)
  }

  /** A header stands within its block. */
  lemma HeaderInBlock(content: Bytes, headers: seq<Header>, i: nat) returns (shift: nat)
    requires Ordered(content, headers) && OnOwnLines(content, headers) && i < |headers|
    ensures shift == headers[i].offset - Line(content, headers, i) <= |Block(content, headers, i)|
  {
    shift := headers[i].offset - Line(content, headers, i);
    LinesIncrease(content, headers, i, i + 1);
    if i + 1 < |headers| { NoLineBetween(content, headers[i].offset, headers[i + 1].offset); }
  }

  lemma OneMoreSurvivor(kept: Bytes, block: Bytes, left: seq<Header>, key: seq<string>, shift: nat, prefix: seq<string>)
    requires Ordered(kept, left) && NoneUnder(prefix, left) && shift <= |block| && !Under(prefix, key)
    ensures Ordered(kept + block, left + [Header(key, |kept| + shift)])
    ensures NoneUnder(prefix, left + [Header(key, |kept| + shift)])
  {
  }

  /** With a table its subtables go, and nothing else: not its parent and no other child of that. */
  lemma UnderMeans(prefix: seq<string>, name: string, other: string)
    ensures Under(prefix, prefix) && Under(prefix, prefix + [name])
    ensures !Under(prefix + [name], prefix)
    ensures other != name ==> !Under(prefix + [name], prefix + [other])
  {
    assert (prefix + [name])[|prefix|] == name && (prefix + [other])[|prefix|] == other;
  }

  /** Removing the table from what is left changes nothing. */
  lemma RemovalIsIdempotent(content: Bytes, headers: seq<Header>, prefix: seq<string>)
    requires Ordered(content, headers) && OnOwnLines(content, headers)
    ensures var out := Kept(content, headers, prefix, |headers|);
            var left := Survivors(content, headers, prefix, |headers|);
            Ordered(out, left) && Kept(out, left, prefix, |left|) == out
  {
    var out := Kept(content, headers, prefix, |headers|);
    var left := Survivors(content, headers, prefix, |headers|);
    SurvivorsStandInOrder(content, headers, prefix, |headers|);
    NothingToRemove(out, left, prefix, |left|);
  }
}
