/** Positions and byte slices with virtual spaces (src/util/slice.rs). */
module Slice {
  import opened Results
  import opened Events

  /** Columns per tab stop. */
  const TAB_SIZE: nat := 4

  /** A range between two points. */
  datatype Position = Position(start: Point, end: Point)

  /** Bytes of a range, with the virtual spaces before and after them. */
  datatype Slice = Slice(bytes: seq<byte>, before: nat, after: nat)

  /** Why an operation panics. */
  datatype Panic =
    | IndexOutOfBounds
    | NotAnExit
    | NoEnter
    | TooManyVirtualSpaces
    | TrailingVirtualSpaces

  /** Index of the nearest `Enter` named `name` at or below `i`, if any. */
  function NearestEnter(events: seq<Event>, name: Name, i: nat): (r: Option<nat>)
    requires i < |events|
    ensures r.Some? ==> r.value <= i && events[r.value].kind == Enter && events[r.value].name == name
    ensures r.Some? ==> forall k :: r.value < k <= i ==> !(events[k].kind == Enter && events[k].name == name)
    ensures r.None? ==> forall k :: 0 <= k <= i ==> !(events[k].kind == Enter && events[k].name == name)
    decreases i
  {
    if events[i].kind == Enter && events[i].name == name then Some(i)
    else if i == 0 then None
    else NearestEnter(events, name, i - 1)
  }

  /** The position of the span that the exit at `index` closes: from the
      nearest preceding enter of the same name to the exit. */
  function FromExitEvent(events: seq<Event>, index: nat): (r: Result<Position, Panic>)
    ensures index >= |events| ==> r == Err(IndexOutOfBounds)
    ensures index < |events| && events[index].kind != Exit ==> r == Err(NotAnExit)
    ensures r.Err? && index < |events| && events[index].kind == Exit ==>
      r.error == NoEnter
      && forall k :: 0 <= k < index ==> !(events[k].kind == Enter && events[k].name == events[index].name)
    ensures r.Ok? ==>
      && index < |events| && events[index].kind == Exit
      && r.value.end == events[index].point
      && (exists j :: 0 <= j < index
           && events[j].kind == Enter && events[j].name == events[index].name
           && r.value.start == events[j].point
           && forall k :: j < k < index ==> !(events[k].kind == Enter && events[k].name == events[index].name))
  {
    if index >= |events| then Err(IndexOutOfBounds)
    else if events[index].kind != Exit then Err(NotAnExit)
    else if index == 0 then Err(NoEnter)
    else
      match NearestEnter(events, events[index].name, index - 1)
      case None => Err(NoEnter)
      case Some(j) => Ok(Position(events[j].point, events[index].point))
  }

  /** A span with no enter of its own name inside it resolves to its own
      enter and exit. */
  lemma {:induction false} FromExitEventFindsOwnEnter(before: seq<Event>, enter: Event, inside: seq<Event>, exit: Event)
    requires enter.kind == Enter && exit.kind == Exit && enter.name == exit.name
    requires forall k :: 0 <= k < |inside| ==> !(inside[k].kind == Enter && inside[k].name == exit.name)
    ensures FromExitEvent(before + [enter] + inside + [exit], |before| + |inside| + 1)
         == Ok(Position(enter.point, exit.point))
  {
    var events := before + [enter] + inside + [exit];
    var index := |before| + |inside| + 1;
    assert events[index] == exit;
    assert events[|before|] == enter;
    forall k | |before| < k < index
      ensures !(events[k].kind == Enter && events[k].name == exit.name)
    {
      assert events[k] == inside[k - |before| - 1];
    }
    var r := NearestEnter(events, exit.name, index - 1);
    assert r == Some(|before|);
  }

  /** Byte offsets of a position; virtual spaces are dropped. */
  function ToIndices(p: Position): (r: (nat, nat))
    ensures r.0 == p.start.index && r.1 == p.end.index
  {
    (p.start.index, p.end.index)
  }

  /** The slice of a position.  Virtual spaces at the start mean the byte
      there (a tab) is partly consumed: it is skipped and stands for
      `TAB_SIZE - vs` spaces.  Virtual spaces at the end mean that byte is
      included, with one virtual space fewer. */
  function FromPosition(bytes: seq<byte>, p: Position): (r: Result<Slice, Panic>)
    ensures r.Err? <==>
      p.start.vs > TAB_SIZE
      || !(p.start.index + (if p.start.vs > 0 then 1 else 0)
           <= p.end.index + (if p.end.vs > 0 then 1 else 0) <= |bytes|)
    ensures r.Ok? ==>
      && (p.start.vs == 0 ==> r.value.before == 0)
      && (p.start.vs > 0 ==> r.value.before + p.start.vs == TAB_SIZE)
      && (p.end.vs == 0 ==> r.value.after == 0)
      && (p.end.vs > 0 ==> r.value.after + 1 == p.end.vs)
    ensures r.Ok? ==>
      var first := p.start.index + (if p.start.vs > 0 then 1 else 0);
      var last := p.end.index + (if p.end.vs > 0 then 1 else 0);
      && |r.value.bytes| == last - first
      && forall k :: first <= k < last ==> r.value.bytes[k - first] == bytes[k]
  {
    var before := p.start.vs;
    var after := p.end.vs;
    var start := p.start.index;
    var end := p.end.index;
    if before > TAB_SIZE then Err(TooManyVirtualSpaces)
    else
      var (before', start') := if before > 0 then (TAB_SIZE - before, start + 1) else (before, start);
      var (after', end') := if after > 0 then (after - 1, end + 1) else (after, end);
      if start' <= end' <= |bytes| then Ok(Slice(bytes[start'..end'], before', after'))
      else Err(IndexOutOfBounds)
  }

  /** The slice between two byte offsets, without virtual spaces. */
  function FromIndices(bytes: seq<byte>, start: nat, end: nat): (r: Result<Slice, Panic>)
    ensures r.Err? <==> !(start <= end <= |bytes|)
    ensures r.Ok? ==> r.value.before == 0 && r.value.after == 0
    ensures r.Ok? ==> |r.value.bytes| == end - start
                      && forall k :: start <= k < end ==> r.value.bytes[k - start] == bytes[k]
  {
    if start <= end <= |bytes| then Ok(Slice(bytes[start..end], 0, 0)) else Err(IndexOutOfBounds)
  }

  /** Size of a slice, virtual spaces included. */
  function Len(s: Slice): (n: nat)
    ensures n >= |s.bytes|
    ensures n == |s.bytes| <==> s.before == 0 && s.after == 0
  {
    |s.bytes| + s.before + s.after
  }

  /** Without virtual spaces a position slices exactly the bytes between
      its indices. */
  lemma FromPositionWithoutVirtualSpaces(bytes: seq<byte>, p: Position)
    requires p.start.vs == 0 && p.end.vs == 0
    ensures FromPosition(bytes, p) == FromIndices(bytes, ToIndices(p).0, ToIndices(p).1)
  {
  }

  /** The size of a position's slice counts the columns it spans: the whole
      bytes in between, the rest of a partly consumed tab at the start, and
      the virtual spaces at the end. */
  lemma FromPositionLen(bytes: seq<byte>, p: Position)
    requires FromPosition(bytes, p).Ok?
    ensures Len(FromPosition(bytes, p).value) + (if p.start.vs > 0 then p.start.vs + 1 else 0)
         == p.end.index - p.start.index + TAB_SIZE * (if p.start.vs > 0 then 1 else 0) + p.end.vs
  {
  }

  /** `n` spaces. */
  function Spaces(n: nat): (r: seq<byte>)
    ensures |r| == n && forall k :: 0 <= k < n ==> r[k] == Space
  {
    seq(n, k => Space)
  }

  /** The slice as text: a space per leading virtual space, then the bytes.
      Trailing virtual spaces are refused. */
  method Serialize(s: Slice) returns (r: Result<seq<byte>, Panic>)
    ensures r.Err? <==> s.after != 0
    ensures r.Ok? ==> |r.value| == Len(s)
    ensures r.Ok? ==> r.value == Spaces(s.before) + s.bytes
  {
    if s.after != 0 {
      return Err(TrailingVirtualSpaces);
    }
    var text: seq<byte> := [];
    var index: nat := s.before;
    while index > 0
      invariant index <= s.before
      invariant text == Spaces(s.before - index)
    {
      text := text + [Space];
      index := index - 1;
    }
    text := text + s.bytes;
    return Ok(text);
  }
}
