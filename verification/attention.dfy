/** Attention: emphasis and strong (src/construct/attention.rs).

    The scanner turns a run of `*` or `_` into an attention sequence.  Once
    the text is tokenized the resolver collects the sequences, decides from
    the characters around each whether it can open and/or close, matches
    closers with the nearest suitable opener before them, records the
    emphasis or strong events in an edit map, turns unmatched markers into
    data and applies the edits. */
module Attention {
  import opened Results
  import opened Events
  import EditMap

  /** A tokenizer event: the event plus its `previous`/`next` links. */
  type Linked = EditMap.Event<Event>

  /** Why resolving panics. */
  datatype Panic =
    | UnbalancedExit
    | MissingExit
    | OutOfBounds
    | NegativeSize
    | Underflow
    | Edit(reason: EditMap.Panic)

  // ---------------------------------------------------------------------
  // Scanning a sequence

  /** End of the run of `marker` bytes that starts at `i`. */
  function RunEnd(bytes: seq<byte>, marker: byte, i: nat): (end: nat)
    requires i <= |bytes|
    ensures i <= end <= |bytes|
    ensures forall k :: i <= k < end ==> bytes[k] == marker
    ensures end == |bytes| || bytes[end] != marker
    decreases |bytes| - i
  {
    if i < |bytes| && bytes[i] == marker then RunEnd(bytes, marker, i + 1) else i
  }

  /** The scanner (`start` then `inside`): at `pos`, with attention enabled,
      a `*` or `_` starts a sequence that takes every following byte equal
      to it.  The result is the end of the sequence, or `None` when the
      construct does not apply. */
  function ScanSequence(bytes: seq<byte>, pos: nat, enabled: bool): (r: Option<nat>)
    ensures r.Some? <==> enabled && pos < |bytes| && (bytes[pos] == Asterisk || bytes[pos] == Underscore)
    ensures r.Some? ==> pos < r.value <= |bytes|
    ensures r.Some? ==> forall k :: pos <= k < r.value ==> bytes[k] == bytes[pos]
    ensures r.Some? ==> r.value == |bytes| || bytes[r.value] != bytes[pos]
  {
    if enabled && pos < |bytes| && (bytes[pos] == Asterisk || bytes[pos] == Underscore) then
      Some(RunEnd(bytes, bytes[pos], pos + 1))
    else None
  }

  // ---------------------------------------------------------------------
  // Classifying neighbours

  /** Character classes around a sequence. */
  datatype GroupKind = Whitespace | Punctuation | Other

  /** The Unicode facts the resolver consults, which come from character
      tables and lossy UTF-8 decoding: the last character decoded from some
      bytes, the first one, and the two character classes. */
  datatype Unicode = Unicode(
    lastChar: seq<byte> -> Option<char>,
    firstChar: seq<byte> -> Option<char>,
    isWhitespace: char -> bool,
    isPunctuation: char -> bool)

  /** Decoding nothing yields no character. */
  predicate DecodesEmpty(u: Unicode) {
    u.lastChar([]) == None && u.firstChar([]) == None
  }

  /** Whitespace, punctuation or other; no character (the edge of the
      input) counts as whitespace. */
  function ClassifyCharacter(u: Unicode, c: Option<char>): (g: GroupKind)
    ensures c.None? ==> g == Whitespace
    ensures c.Some? ==> (g == Whitespace <==> u.isWhitespace(c.value))
    ensures c.Some? ==> (g == Punctuation <==> !u.isWhitespace(c.value) && u.isPunctuation(c.value))
  {
    match c
    case None => Whitespace
    case Some(ch) => if u.isWhitespace(ch) then Whitespace else if u.isPunctuation(ch) then Punctuation else Other
  }

  /** Left-flanking: the sequence may open. */
  predicate LeftFlanking(before: GroupKind, after: GroupKind) {
    after == Other || (after == Punctuation && before != Other)
  }

  /** Right-flanking: the sequence may close. */
  predicate RightFlanking(before: GroupKind, after: GroupKind) {
    before == Other || (before == Punctuation && after != Other)
  }

  /** The two flanking rules mirror each other. */
  lemma FlankingMirrors(before: GroupKind, after: GroupKind)
    ensures LeftFlanking(before, after) == RightFlanking(after, before)
  {
  }

  /** Whether a sequence of `marker` may open and close.  Asterisks follow
      the flanking rules; an underscore opens only when not also closing
      after a word character, and closes only when not also opening before
      one.  The contract states the emphasis rules of CommonMark: `*` opens
      iff left-flanking and closes iff right-flanking; `_` opens iff
      left-flanking and either not right-flanking or preceded by
      punctuation, and closes by the mirror rule. */
  function Flags(marker: byte, before: GroupKind, after: GroupKind): (r: (bool, bool))
    ensures marker == Asterisk ==> (r.0 <==> LeftFlanking(before, after)) && (r.1 <==> RightFlanking(before, after))
    ensures marker != Asterisk ==>
      (r.0 <==> LeftFlanking(before, after) && (!RightFlanking(before, after) || before == Punctuation))
    ensures marker != Asterisk ==>
      (r.1 <==> RightFlanking(before, after) && (!LeftFlanking(before, after) || after == Punctuation))
  {
    var open := LeftFlanking(before, after);
    var close := RightFlanking(before, after);
    if marker == Asterisk then (open, close)
    else (open && (before != Other || !close), close && (after != Other || !open))
  }

  /** Inside a word, `_` neither opens nor closes, while `*` does both. */
  lemma IntrawordMarkers()
    ensures Flags(Underscore, Other, Other) == (false, false)
    ensures Flags(Asterisk, Other, Other) == (true, true)
  {
  }

  /** A sequence followed by whitespace or the end of the input never opens,
      and one preceded by it never closes. */
  lemma WhitespaceBlocks(marker: byte, before: GroupKind, after: GroupKind)
    ensures after == Whitespace ==> !Flags(marker, before, after).0
    ensures before == Whitespace ==> !Flags(marker, before, after).1
  {
  }

  // ---------------------------------------------------------------------
  // Collecting sequences

  /** What the resolver knows of one sequence. */
  datatype Sequence = Sequence(
    marker: byte,
    balance: nat,
    eventIndex: nat,
    startPoint: Point,
    endPoint: Point,
    size: nat,
    open: bool,
    close: bool)

  /** Nesting depth after the first `n` events: enters minus exits. */
  function Depth(events: seq<Linked>, n: nat): int
    requires n <= |events|
  {
    if n == 0 then 0
    else Depth(events, n - 1) + (if events[n - 1].data.kind == Enter then 1 else -1)
  }

  predicate IsSequenceEnter(e: Linked) {
    e.data.kind == Enter && e.data.name == AttentionSequence
  }

  /** The character right before `index`, decoded from up to four bytes. */
  function CharBefore(u: Unicode, bytes: seq<byte>, index: nat): Option<char>
    requires index <= |bytes|
  {
    u.lastChar(bytes[if index < 4 then 0 else index - 4..index])
  }

  /** The character at `index`, decoded from up to four bytes. */
  function CharAfter(u: Unicode, bytes: seq<byte>, index: nat): Option<char>
    requires index <= |bytes|
  {
    u.firstChar(bytes[index..if index + 4 > |bytes| then |bytes| else index + 4])
  }

  /** The sequence enter at `k` cannot be described: its exit is missing,
      or a point lies outside the bytes, or the exit comes before the enter. */
  predicate SequenceBroken(bytes: seq<byte>, events: seq<Linked>, k: nat)
    requires k < |events|
  {
    || k + 1 >= |events|
    || events[k].data.point.index >= |bytes|
    || events[k + 1].data.point.index > |bytes|
    || events[k + 1].data.point.index < events[k].data.point.index
  }

  /** Collecting panics at event `k`: an exit with no span open, or a
      sequence enter that cannot be described. */
  predicate CollectFailsAt(bytes: seq<byte>, events: seq<Linked>, k: nat)
    requires k < |events|
  {
    || (events[k].data.kind == Exit && Depth(events, k) == 0)
    || (IsSequenceEnter(events[k]) && SequenceBroken(bytes, events, k))
  }

  /** The sequence whose enter is at `start`, at depth `balance`. */
  function Describe(u: Unicode, bytes: seq<byte>, events: seq<Linked>, start: nat, balance: nat): (r: Result<Sequence, Panic>)
    requires start < |events| && IsSequenceEnter(events[start])
    ensures r.Ok? ==>
      && start + 1 < |events|
      && r.value.eventIndex == start
      && r.value.balance == balance
      && r.value.startPoint == events[start].data.point
      && r.value.endPoint == events[start + 1].data.point
      && r.value.endPoint.index == r.value.startPoint.index + r.value.size
      && r.value.startPoint.index < |bytes|
      && r.value.marker == bytes[r.value.startPoint.index]
      && FlagsAgree(r.value, u, bytes)
    ensures r.Err? <==> SequenceBroken(bytes, events, start)
  {
    if start + 1 >= |events| then Err(MissingExit)
    else
      var enter := events[start].data.point;
      var exit := events[start + 1].data.point;
      if enter.index > |bytes| || exit.index > |bytes| then Err(OutOfBounds)
      else
        var before := ClassifyCharacter(u, CharBefore(u, bytes, enter.index));
        var after := ClassifyCharacter(u, CharAfter(u, bytes, exit.index));
        if enter.index == |bytes| then Err(OutOfBounds)
        else
          var marker := bytes[enter.index];
          var flags := Flags(marker, before, after);
          if exit.index < enter.index then Err(NegativeSize)
          else Ok(Sequence(marker, balance, start, enter, exit, exit.index - enter.index, flags.0, flags.1))
  }

  /** A sequence may open and close as the flanking rules decide for its
      marker and the characters around it. */
  predicate FlagsAgree(s: Sequence, u: Unicode, bytes: seq<byte>) {
    && s.startPoint.index <= |bytes|
    && s.endPoint.index <= |bytes|
    && (s.open, s.close) == Flags(s.marker,
         ClassifyCharacter(u, CharBefore(u, bytes, s.startPoint.index)),
         ClassifyCharacter(u, CharAfter(u, bytes, s.endPoint.index)))
  }

  /** Sequences are listed in event order. */
  predicate InEventOrder(seqs: seq<Sequence>) {
    forall i, j :: 0 <= i < j < |seqs| ==> seqs[i].eventIndex < seqs[j].eventIndex
  }

  /** A sequence describes the enter/exit pair at its event index, at the
      nesting depth there, with the flags its surroundings give it. */
  predicate DescribesPair(s: Sequence, u: Unicode, events: seq<Linked>, bytes: seq<byte>) {
    && s.eventIndex + 1 < |events|
    && IsSequenceEnter(events[s.eventIndex])
    && s.balance == Depth(events, s.eventIndex + 1)
    && s.startPoint == events[s.eventIndex].data.point
    && s.endPoint == events[s.eventIndex + 1].data.point
    && s.endPoint.index == s.startPoint.index + s.size
    && s.startPoint.index < |bytes|
    && s.marker == bytes[s.startPoint.index]
    && FlagsAgree(s, u, bytes)
  }

  predicate Describes(seqs: seq<Sequence>, u: Unicode, events: seq<Linked>, bytes: seq<byte>) {
    forall i :: 0 <= i < |seqs| ==> DescribesPair(seqs[i], u, events, bytes)
  }

  /** Every sequence enter from `start` on is listed. */
  predicate Complete(seqs: seq<Sequence>, events: seq<Linked>, start: nat) {
    forall j :: start <= j < |events| && IsSequenceEnter(events[j]) ==>
      exists i :: 0 <= i < |seqs| && seqs[i].eventIndex == j
  }

  lemma ConsDescribes(s: Sequence, rest: seq<Sequence>, u: Unicode, events: seq<Linked>, bytes: seq<byte>)
    requires DescribesPair(s, u, events, bytes) && Describes(rest, u, events, bytes)
    ensures Describes([s] + rest, u, events, bytes)
  {
    var all := [s] + rest;
    forall i | 0 <= i < |all| ensures DescribesPair(all[i], u, events, bytes) {
      if i > 0 {
        assert all[i] == rest[i - 1];
      }
    }
  }

  lemma ConsOrdered(s: Sequence, rest: seq<Sequence>, start: nat)
    requires s.eventIndex == start && InEventOrder(rest)
    requires forall i :: 0 <= i < |rest| ==> start + 1 <= rest[i].eventIndex
    ensures InEventOrder([s] + rest)
    ensures forall i :: 0 <= i < |[s] + rest| ==> start <= ([s] + rest)[i].eventIndex
  {
    var all := [s] + rest;
    forall i | 0 <= i < |all| ensures start <= all[i].eventIndex {
      if i > 0 {
        assert all[i] == rest[i - 1];
      }
    }
    forall i, k | 0 <= i < k < |all| ensures all[i].eventIndex < all[k].eventIndex {
      assert all[k] == rest[k - 1];
      if i > 0 {
        assert all[i] == rest[i - 1];
      }
    }
  }

  lemma ConsComplete(s: Sequence, rest: seq<Sequence>, events: seq<Linked>, start: nat)
    requires s.eventIndex == start
    requires Complete(rest, events, start + 1)
    ensures Complete([s] + rest, events, start)
  {
    var all := [s] + rest;
    forall j | start <= j < |events| && IsSequenceEnter(events[j])
      ensures exists i :: 0 <= i < |all| && all[i].eventIndex == j
    {
      if j == start {
        assert all[0].eventIndex == j;
      } else {
        var i :| 0 <= i < |rest| && rest[i].eventIndex == j;
        assert all[i + 1].eventIndex == j;
      }
    }
  }

  lemma CollectSkip(rest: seq<Sequence>, events: seq<Linked>, start: nat)
    requires start < |events| && !IsSequenceEnter(events[start])
    requires Complete(rest, events, start + 1)
    ensures Complete(rest, events, start)
  {
  }

  /** The first loop of `resolve`, from event `start` on at depth `balance`. */
  function CollectFrom(u: Unicode, bytes: seq<byte>, events: seq<Linked>, start: nat, balance: nat)
    : (r: Result<seq<Sequence>, Panic>)
    requires start <= |events| && balance == Depth(events, start)
    ensures r.Ok? ==> Describes(r.value, u, events, bytes) && InEventOrder(r.value)
    ensures r.Ok? ==> forall i :: 0 <= i < |r.value| ==> start <= r.value[i].eventIndex
    ensures r.Ok? ==> Complete(r.value, events, start)
    decreases |events| - start
  {
    if start == |events| then Ok([])
    else if events[start].data.kind == Enter then
      if IsSequenceEnter(events[start]) then
        var s :- Describe(u, bytes, events, start, balance + 1);
        var rest :- CollectFrom(u, bytes, events, start + 1, balance + 1);
        ConsDescribes(s, rest, u, events, bytes);
        ConsOrdered(s, rest, start);
        ConsComplete(s, rest, events, start);
        Ok([s] + rest)
      else
        var rest :- CollectFrom(u, bytes, events, start + 1, balance + 1);
        CollectSkip(rest, events, start);
        Ok(rest)
    else if balance == 0 then Err(UnbalancedExit)
    else
      var rest :- CollectFrom(u, bytes, events, start + 1, balance - 1);
      CollectSkip(rest, events, start);
      Ok(rest)
  }

  /** All sequences of the event list, in order. */
  function Collect(u: Unicode, bytes: seq<byte>, events: seq<Linked>): (r: Result<seq<Sequence>, Panic>)
    ensures r.Ok? ==> Describes(r.value, u, events, bytes) && InEventOrder(r.value)
    ensures r.Ok? ==> Complete(r.value, events, 0)
    ensures r.Err? <==> exists k :: 0 <= k < |events| && CollectFailsAt(bytes, events, k)
  {
    CollectFromFails(u, bytes, events, 0, 0);
    CollectFrom(u, bytes, events, 0, 0)
  }

  /** Collecting from `start` panics exactly when some event from `start`
      on is an exit with no span open or a sequence enter that cannot be
      described. */
  lemma {:induction false} CollectFromFails(u: Unicode, bytes: seq<byte>, events: seq<Linked>, start: nat, balance: nat)
    requires start <= |events| && balance == Depth(events, start)
    ensures CollectFrom(u, bytes, events, start, balance).Err?
        <==> exists k :: start <= k < |events| && CollectFailsAt(bytes, events, k)
    decreases |events| - start
  {
    if start < |events| {
      if CollectFailsAt(bytes, events, start) {
        CollectFailsHere(u, bytes, events, start, balance);
      } else {
        var next := Depth(events, start + 1);
        CollectPassesOn(u, bytes, events, start, balance);
        CollectFromFails(u, bytes, events, start + 1, next);
        forall k | start <= k < |events| && CollectFailsAt(bytes, events, k)
          ensures start + 1 <= k
        {
        }
      }
    }
  }

  /** A failure at `start` fails the collection. */
  lemma CollectFailsHere(u: Unicode, bytes: seq<byte>, events: seq<Linked>, start: nat, balance: nat)
    requires start < |events| && balance == Depth(events, start)
    requires CollectFailsAt(bytes, events, start)
    ensures CollectFrom(u, bytes, events, start, balance).Err?
  {
  }

  /** Past an event that does not fail, collection fails iff the rest does. */
  lemma CollectPassesOn(u: Unicode, bytes: seq<byte>, events: seq<Linked>, start: nat, balance: nat)
    requires start < |events| && balance == Depth(events, start)
    requires !CollectFailsAt(bytes, events, start)
    ensures Depth(events, start + 1) >= 0
    ensures CollectFrom(u, bytes, events, start, balance).Err?
        <==> CollectFrom(u, bytes, events, start + 1, Depth(events, start + 1) as nat).Err?
  {
  }


  // ---------------------------------------------------------------------
  // Matching sequences

  /** Markers still available over all sequences. */
  function SumSizes(seqs: seq<Sequence>): nat
    decreases |seqs|
  {
    if |seqs| == 0 then 0 else seqs[0].size + SumSizes(seqs[1..])
  }

  lemma {:induction false} SumSizesConcat(a: seq<Sequence>, b: seq<Sequence>)
    ensures SumSizes(a + b) == SumSizes(a) + SumSizes(b)
    decreases |a|
  {
    if |a| > 0 {
      assert (a + b)[1..] == a[1..] + b;
      SumSizesConcat(a[1..], b);
    } else {
      assert a + b == b;
    }
  }

  /** `open` can open, and has the closer's marker and depth. */
  predicate Pairable(open: Sequence, close: Sequence) {
    open.open && open.marker == close.marker && open.balance == close.balance
  }

  /** The rule of three, as the resolver tests it. */
  predicate RuleOfThree(open: Sequence, close: Sequence) {
    (open.close || close.open) && close.size % 3 != 0 && (open.size + close.size) % 3 == 0
  }

  /** Stated symmetrically: when either side could both open and close, a
      pair whose sizes add up to a multiple of three is refused unless both
      sizes are multiples of three. */
  lemma RuleOfThreeSymmetric(open: Sequence, close: Sequence)
    ensures RuleOfThree(open, close) <==>
      && (open.close || close.open)
      && (open.size + close.size) % 3 == 0
      && !(open.size % 3 == 0 && close.size % 3 == 0)
  {
    if (open.size + close.size) % 3 == 0 {
      assert close.size % 3 == 0 <==> open.size % 3 == 0;
    }
  }

  /** The sequence at `open` is the kind of opener the closer at `close`
      accepts. */
  predicate Matchable(seqs: seq<Sequence>, open: nat, close: nat) {
    open < close < |seqs| && Pairable(seqs[open], seqs[close]) && !RuleOfThree(seqs[open], seqs[close])
  }

  /** Markers a match uses from each side: strong takes two, emphasis one. */
  function TakeCount(open: Sequence, close: Sequence): (t: nat)
    ensures 1 <= t <= 2
    ensures t == 2 <==> open.size > 1 && close.size > 1
  {
    if open.size > 1 && close.size > 1 then 2 else 1
  }

  /** The greatest index below `below` whose sequence the closer at `close`
      accepts, if any. */
  function NearestBelow(seqs: seq<Sequence>, close: nat, below: nat): (r: Option<nat>)
    requires below <= close < |seqs|
    ensures r.Some? ==> r.value < below && Matchable(seqs, r.value, close)
    ensures r.Some? ==> forall k :: r.value < k < below ==> !Matchable(seqs, k, close)
    ensures r.None? ==> forall k :: 0 <= k < below ==> !Matchable(seqs, k, close)
    decreases below
  {
    if below == 0 then None
    else if Matchable(seqs, below - 1, close) then Some(below - 1)
    else NearestBelow(seqs, close, below - 1)
  }

  /** The nearest opener the closer at `close` accepts: the greatest
      `k < close` with `Matchable(seqs, k, close)`. */
  function NearestOpener(seqs: seq<Sequence>, close: nat): Option<nat>
    requires close < |seqs|
  {
    NearestBelow(seqs, close, close)
  }

  /** Only the nearest opener is acceptable with none acceptable between it
      and the closer. */
  lemma NearestOpenerUnique(seqs: seq<Sequence>, close: nat, o: Option<nat>)
    requires close < |seqs|
    requires o.Some? ==> Matchable(seqs, o.value, close)
    requires o.Some? ==> forall k :: o.value < k < close ==> !Matchable(seqs, k, close)
    requires o.None? ==> forall k :: 0 <= k < close ==> !Matchable(seqs, k, close)
    ensures o == NearestOpener(seqs, close)
  {
    var n := NearestOpener(seqs, close);
    if o.Some? && n.Some? {
      assert !(o.value < n.value) by { assert Matchable(seqs, n.value, close); }
      assert !(n.value < o.value) by { assert Matchable(seqs, o.value, close); }
    }
  }

  /** The inner loop: walk back from the closer to the nearest opener it
      accepts. */
  method FindOpener(seqs: seq<Sequence>, close: nat) returns (r: Option<nat>)
    requires close < |seqs|
    ensures r == NearestOpener(seqs, close)
    ensures r.Some? ==> Matchable(seqs, r.value, close)
    ensures r.Some? ==> forall k :: r.value < k < close ==> !Matchable(seqs, k, close)
    ensures r.None? ==> forall k :: 0 <= k < close ==> !Matchable(seqs, k, close)
  {
    var open: nat := close;
    while open > 0
      invariant open <= close
      invariant forall k :: open <= k < close ==> !Matchable(seqs, k, close)
    {
      open := open - 1;
      if Pairable(seqs[open], seqs[close]) {
        if RuleOfThree(seqs[open], seqs[close]) {
          continue;
        }
        NearestOpenerUnique(seqs, close, Some(open));
        return Some(open);
      }
    }
    NearestOpenerUnique(seqs, close, None);
    return None;
  }

  /** The resolver's working state: sequences, events and recorded edits. */
  datatype State = State(seqs: seq<Sequence>, events: seq<Linked>, edits: EditMap.EditMap<Linked>)

  /** A sequence's enter and exit exist and its end lies `size` bytes after
      its start. */
  predicate PlacedIn(s: Sequence, count: nat) {
    s.eventIndex + 1 < count && s.endPoint.index == s.startPoint.index + s.size
  }

  /** Every sequence is placed and the edit map is still open, with at most
      one recorded edit per index. */
  predicate Placed(st: State) {
    && !st.edits.consumed
    && EditMap.DistinctAts(st.edits.edits)
    && forall i :: 0 <= i < |st.seqs| ==> PlacedIn(st.seqs[i], |st.events|)
  }

  /** A sequence as the scanner leaves it: not empty, with an end column at
      least its size. */
  predicate Sound(s: Sequence) {
    s.size > 0 && s.endPoint.column >= s.size
  }

  predicate AllSound(seqs: seq<Sequence>) {
    forall i :: 0 <= i < |seqs| ==> Sound(seqs[i])
  }

  /** A new event, without links. */
  function NewEvent(kind: Kind, name: Name, point: Point): Linked {
    EditMap.Event(Event(kind, name, point), None, None)
  }

  function GroupName(t: nat): Name {
    if t == 1 then Emphasis else Strong
  }

  function SequenceName(t: nat): Name {
    if t == 1 then EmphasisSequence else StrongSequence
  }

  function TextName(t: nat): Name {
    if t == 1 then EmphasisText else StrongText
  }

  /** Events that open emphasis or strong: the group, its sequence of taken
      markers, and its text. */
  function Opening(t: nat, enter: Point, exit: Point): seq<Linked> {
    [NewEvent(Enter, GroupName(t), enter), NewEvent(Enter, SequenceName(t), enter),
     NewEvent(Exit, SequenceName(t), exit), NewEvent(Enter, TextName(t), exit)]
  }

  /** Events that close it again. */
  function Closing(t: nat, enter: Point, exit: Point): seq<Linked> {
    [NewEvent(Exit, TextName(t), enter), NewEvent(Enter, SequenceName(t), enter),
     NewEvent(Exit, SequenceName(t), exit), NewEvent(Exit, GroupName(t), exit)]
  }

  function SetPoint(events: seq<Linked>, i: nat, p: Point): (r: seq<Linked>)
    requires i < |events|
    ensures |r| == |events| && r[i].data.point == p
    ensures r[i].data.kind == events[i].data.kind && r[i].data.name == events[i].data.name
    ensures forall k :: 0 <= k < |events| && k != i ==> r[k] == events[k]
  {
    events[i := events[i].(data := events[i].data.(point := p))]
  }

  /** `p` moved by `d` bytes on its line. */
  function Moved(p: Point, d: int): Point
    requires p.column + d >= 0 && p.index + d >= 0
  {
    p.(column := p.column + d, index := p.index + d)
  }

  /** The opener after giving up its last `t` markers. */
  function Shortened(o: Sequence, t: nat): Sequence
    requires t <= o.size && t <= o.endPoint.column && t <= o.endPoint.index
  {
    o.(size := o.size - t, endPoint := Moved(o.endPoint, -(t as int)))
  }

  /** The closer after giving up its first `t` markers. */
  function Advanced(c: Sequence, t: nat): Sequence
    requires t <= c.size
  {
    c.(size := c.size - t, startPoint := Moved(c.startPoint, t))
  }

  /** `[s]`, or nothing when `s` has no markers left. */
  function Keep(s: Sequence): (r: seq<Sequence>)
    ensures |r| == (if s.size == 0 then 0 else 1)
  {
    if s.size == 0 then [] else [s]
  }

  /** The sequences with their `open` flag cleared. */
  function Cleared(seqs: seq<Sequence>): (r: seq<Sequence>)
    ensures |r| == |seqs| && forall k :: 0 <= k < |seqs| ==> r[k] == seqs[k].(open := false)
  {
    seq(|seqs|, k requires 0 <= k < |seqs| => seqs[k].(open := false))
  }

  /** The sequence list after matching `open` with `close`, and the index
      the outer loop continues at. */
  function PairSeqs(seqs: seq<Sequence>, open: nat, close: nat, t: nat): (r: (seq<Sequence>, nat))
    requires open < close < |seqs|
    requires t <= seqs[open].size && t <= seqs[close].size
    requires t <= seqs[open].endPoint.column && t <= seqs[open].endPoint.index
    ensures |r.0| == |seqs| - (if seqs[open].size == t then 1 else 0) - (if seqs[close].size == t then 1 else 0)
    ensures r.1 == close - (if seqs[open].size == t then 1 else 0)
  {
    var o := Shortened(seqs[open], t);
    var c := Advanced(seqs[close], t);
    (seqs[..open] + Keep(o) + Cleared(seqs[open + 1..close]) + Keep(c) + seqs[close + 1..],
     if o.size == 0 then close - 1 else close)
  }

  /** The five pieces `PairSeqs` glues together, with their lengths. */
  lemma PairPieces(seqs: seq<Sequence>, open: nat, close: nat, t: nat)
    requires open < close < |seqs|
    requires t <= seqs[open].size && t <= seqs[close].size
    requires t <= seqs[open].endPoint.column && t <= seqs[open].endPoint.index
    ensures PairSeqs(seqs, open, close, t).0
      == seqs[..open] + Keep(Shortened(seqs[open], t)) + Cleared(seqs[open + 1..close])
         + Keep(Advanced(seqs[close], t)) + seqs[close + 1..]
  {
  }

  /** Sequences before the opener stay as they were. */
  lemma PairKeepsBefore(seqs: seq<Sequence>, open: nat, close: nat, t: nat, k: nat)
    requires open < close < |seqs|
    requires t <= seqs[open].size && t <= seqs[close].size
    requires t <= seqs[open].endPoint.column && t <= seqs[open].endPoint.index
    requires k < open
    ensures PairSeqs(seqs, open, close, t).0[k] == seqs[k]
  {
    PairPieces(seqs, open, close, t);
    var r := PairSeqs(seqs, open, close, t).0;
    var x := seqs[..open];
    var y := Keep(Shortened(seqs[open], t)) + Cleared(seqs[open + 1..close])
         + Keep(Advanced(seqs[close], t)) + seqs[close + 1..];
    assert r == x + y;
  }

  /** The opener loses its last `t` markers, and is dropped when none are left. */
  lemma PairShortensOpener(seqs: seq<Sequence>, open: nat, close: nat, t: nat)
    requires open < close < |seqs|
    requires t <= seqs[open].size && t <= seqs[close].size
    requires t <= seqs[open].endPoint.column && t <= seqs[open].endPoint.index
    requires t < seqs[open].size
    ensures PairSeqs(seqs, open, close, t).0[open] == Shortened(seqs[open], t)
  {
    PairPieces(seqs, open, close, t);
    var r := PairSeqs(seqs, open, close, t).0;
    var x := seqs[..open] + [Shortened(seqs[open], t)];
    var y := Cleared(seqs[open + 1..close]) + Keep(Advanced(seqs[close], t)) + seqs[close + 1..];
    assert r == x + y;
  }

  /** Sequences between opener and closer can no longer open. */
  lemma PairClearsBetween(seqs: seq<Sequence>, open: nat, close: nat, t: nat, k: nat)
    requires open < close < |seqs|
    requires t <= seqs[open].size && t <= seqs[close].size
    requires t <= seqs[open].endPoint.column && t <= seqs[open].endPoint.index
    requires open < k < close
    ensures PairSeqs(seqs, open, close, t).0[k - (if seqs[open].size == t then 1 else 0)]
      == seqs[k].(open := false)
  {
    PairPieces(seqs, open, close, t);
    var r := PairSeqs(seqs, open, close, t).0;
    var x := seqs[..open] + Keep(Shortened(seqs[open], t));
    var m := Cleared(seqs[open + 1..close]);
    var y := Keep(Advanced(seqs[close], t)) + seqs[close + 1..];
    assert r == x + m + y;
    assert |x| == open + 1 - (if seqs[open].size == t then 1 else 0);
    assert (x + m + y)[k - (if seqs[open].size == t then 1 else 0)] == m[k - open - 1];
  }

  /** The closer loses its first `t` markers, and is dropped when none are left;
      the outer loop continues at its new place. */
  lemma PairAdvancesCloser(seqs: seq<Sequence>, open: nat, close: nat, t: nat)
    requires open < close < |seqs|
    requires t <= seqs[open].size && t <= seqs[close].size
    requires t <= seqs[open].endPoint.column && t <= seqs[open].endPoint.index
    requires t < seqs[close].size
    ensures PairSeqs(seqs, open, close, t).1 < |PairSeqs(seqs, open, close, t).0|
    ensures PairSeqs(seqs, open, close, t).0[PairSeqs(seqs, open, close, t).1] == Advanced(seqs[close], t)
  {
    PairPieces(seqs, open, close, t);
    var r := PairSeqs(seqs, open, close, t).0;
    var x := seqs[..open] + Keep(Shortened(seqs[open], t)) + Cleared(seqs[open + 1..close]);
    var y := seqs[close + 1..];
    assert r == x + [Advanced(seqs[close], t)] + y;
    assert |x| == PairSeqs(seqs, open, close, t).1;
  }

  /** Sequences after the closer stay as they were. */
  lemma PairKeepsAfter(seqs: seq<Sequence>, open: nat, close: nat, t: nat, k: nat)
    requires open < close < |seqs|
    requires t <= seqs[open].size && t <= seqs[close].size
    requires t <= seqs[open].endPoint.column && t <= seqs[open].endPoint.index
    requires close < k < |seqs|
    ensures PairSeqs(seqs, open, close, t).0[k - (if seqs[open].size == t then 1 else 0)
                                                - (if seqs[close].size == t then 1 else 0)] == seqs[k]
  {
    PairPieces(seqs, open, close, t);
    var r := PairSeqs(seqs, open, close, t).0;
    var x := seqs[..open] + Keep(Shortened(seqs[open], t)) + Cleared(seqs[open + 1..close])
         + Keep(Advanced(seqs[close], t));
    var y := seqs[close + 1..];
    assert r == x + y;
    assert |x| == close + 1 - (if seqs[open].size == t then 1 else 0) - (if seqs[close].size == t then 1 else 0);
  }

  /** A match uses up exactly `t` markers on each side. */
  lemma PairConservesMarkers(seqs: seq<Sequence>, open: nat, close: nat, t: nat)
    requires open < close < |seqs|
    requires t <= seqs[open].size && t <= seqs[close].size
    requires t <= seqs[open].endPoint.column && t <= seqs[open].endPoint.index
    ensures SumSizes(PairSeqs(seqs, open, close, t).0) + 2 * t == SumSizes(seqs)
  {
    var o := Shortened(seqs[open], t);
    var c := Advanced(seqs[close], t);
    var a := seqs[..open];
    var mid := seqs[open + 1..close];
    var e := seqs[close + 1..];
    SplitAround(seqs, open, close);
    SumSizesFive(a, [seqs[open]], mid, [seqs[close]], e);
    SumSizesFive(a, Keep(o), Cleared(mid), Keep(c), e);
    SumSizesCleared(mid);
    assert SumSizes(Keep(o)) == o.size;
    assert SumSizes(Keep(c)) == c.size;
    assert SumSizes([seqs[open]]) == seqs[open].size;
    assert SumSizes([seqs[close]]) == seqs[close].size;
  }

  lemma SplitAround(seqs: seq<Sequence>, open: nat, close: nat)
    requires open < close < |seqs|
    ensures seqs == seqs[..open] + [seqs[open]] + seqs[open + 1..close] + [seqs[close]] + seqs[close + 1..]
  {
    assert seqs[..close] == seqs[..open] + [seqs[open]] + seqs[open + 1..close];
    assert seqs == seqs[..close] + [seqs[close]] + seqs[close + 1..];
  }

  lemma SumSizesFive(a: seq<Sequence>, b: seq<Sequence>, c: seq<Sequence>, d: seq<Sequence>, e: seq<Sequence>)
    ensures SumSizes(a + b + c + d + e) == SumSizes(a) + SumSizes(b) + SumSizes(c) + SumSizes(d) + SumSizes(e)
  {
    SumSizesConcat(a + b + c + d, e);
    SumSizesConcat(a + b + c, d);
    SumSizesConcat(a + b, c);
    SumSizesConcat(a, b);
  }

  lemma {:induction false} SumSizesCleared(seqs: seq<Sequence>)
    ensures SumSizes(Cleared(seqs)) == SumSizes(seqs)
    decreases |seqs|
  {
    if |seqs| > 0 {
      assert Cleared(seqs)[1..] == Cleared(seqs[1..]);
      SumSizesCleared(seqs[1..]);
    }
  }

  // ---------------------------------------------------------------------
  // One match

  /** Old index of the sequence at `j` after `PairSeqs`. */
  function Origin(seqs: seq<Sequence>, open: nat, close: nat, t: nat, j: nat): nat
    requires open < close < |seqs|
  {
    var dropOpen := if seqs[open].size == t then 1 else 0;
    var dropClose := if seqs[close].size == t then 1 else 0;
    if j < open then j
    else if j + dropOpen < close then j + dropOpen
    else j + dropOpen + dropClose
  }

  /** `x` is what became of `y`: same place, marker, depth and closing
      ability, and it opens only if `y` did. */
  predicate Derived(x: Sequence, y: Sequence) {
    && x.eventIndex == y.eventIndex && x.marker == y.marker && x.balance == y.balance
    && x.close == y.close && (x.open ==> y.open)
  }

  /** Each sequence after a match comes from the sequence at its origin:
      unchanged before the opener and after the closer, with `open` cleared
      in between, or as the shortened opener or advanced closer. */
  lemma PairOrigin(seqs: seq<Sequence>, open: nat, close: nat, t: nat, j: nat)
    requires open < close < |seqs|
    requires t <= seqs[open].size && t <= seqs[close].size
    requires t <= seqs[open].endPoint.column && t <= seqs[open].endPoint.index
    requires j < |PairSeqs(seqs, open, close, t).0|
    ensures Origin(seqs, open, close, t, j) < |seqs|
    ensures var x := PairSeqs(seqs, open, close, t).0[j];
            var i := Origin(seqs, open, close, t, j);
      && Derived(x, seqs[i])
      && (i < open || close < i ==> x == seqs[i])
      && (open < i < close ==> x == seqs[i].(open := false))
      && (i == open ==> x == Shortened(seqs[open], t) && x.size > 0)
      && (i == close ==> x == Advanced(seqs[close], t) && x.size > 0)
  {
    var dropOpen := if seqs[open].size == t then 1 else 0;
    var dropClose := if seqs[close].size == t then 1 else 0;
    var i := Origin(seqs, open, close, t, j);
    if j < open {
      PairKeepsBefore(seqs, open, close, t, j);
    } else if j + dropOpen < close {
      if i == open {
        PairShortensOpener(seqs, open, close, t);
      } else {
        PairClearsBetween(seqs, open, close, t, i);
      }
    } else if i == close {
      PairAdvancesCloser(seqs, open, close, t);
    } else {
      PairKeepsAfter(seqs, open, close, t, i);
    }
  }

  /** Origins grow with the index, so a match keeps event order. */
  lemma PairKeepsOrder(seqs: seq<Sequence>, open: nat, close: nat, t: nat)
    requires open < close < |seqs|
    requires t <= seqs[open].size && t <= seqs[close].size
    requires t <= seqs[open].endPoint.column && t <= seqs[open].endPoint.index
    requires InEventOrder(seqs)
    ensures InEventOrder(PairSeqs(seqs, open, close, t).0)
  {
    var r := PairSeqs(seqs, open, close, t).0;
    forall i, j | 0 <= i < j < |r| ensures r[i].eventIndex < r[j].eventIndex {
      PairOrigin(seqs, open, close, t, i);
      PairOrigin(seqs, open, close, t, j);
    }
  }

  /** A match keeps every sequence placed. */
  lemma PairKeepsPlaced(seqs: seq<Sequence>, open: nat, close: nat, t: nat, count: nat)
    requires open < close < |seqs|
    requires t <= seqs[open].size && t <= seqs[close].size
    requires t <= seqs[open].endPoint.column && t <= seqs[open].endPoint.index
    requires forall i :: 0 <= i < |seqs| ==> PlacedIn(seqs[i], count)
    ensures var r := PairSeqs(seqs, open, close, t).0;
      forall j :: 0 <= j < |r| ==> PlacedIn(r[j], count)
  {
    var r := PairSeqs(seqs, open, close, t).0;
    forall j | 0 <= j < |r| ensures PlacedIn(r[j], count) {
      PairOrigin(seqs, open, close, t, j);
    }
  }

  /** A match keeps every sequence sound. */
  lemma PairKeepsSound(seqs: seq<Sequence>, open: nat, close: nat, t: nat)
    requires open < close < |seqs|
    requires t <= seqs[open].size && t <= seqs[close].size
    requires t <= seqs[open].endPoint.column && t <= seqs[open].endPoint.index
    ensures AllSound(seqs) ==> AllSound(PairSeqs(seqs, open, close, t).0)
  {
    var r := PairSeqs(seqs, open, close, t).0;
    if AllSound(seqs) {
      forall j | 0 <= j < |r| ensures Sound(r[j]) {
        PairOrigin(seqs, open, close, t, j);
      }
    }
  }

  /** What a match records in the edit map: removing an exhausted closer
      and opener, the opening events after the opener (before anything
      already recorded there) and the closing events at the closer. */
  function PairEdits(m: EditMap.EditMap<Linked>, o: Sequence, c: Sequence, t: nat): (r: EditMap.EditMap<Linked>)
    requires !m.consumed && EditMap.DistinctAts(m.edits)
    requires t <= o.size && t <= c.size && t <= o.endPoint.column && t <= o.endPoint.index
    ensures !r.consumed && EditMap.DistinctAts(r.edits)
    ensures forall at: nat :: at != o.eventIndex && at != o.eventIndex + 2 && at != c.eventIndex ==>
      EditMap.Pending(r.edits, at) == EditMap.Pending(m.edits, at)
    ensures o.eventIndex + 2 < c.eventIndex ==>
      && EditMap.Pending(r.edits, o.eventIndex)
         == EditMap.Pending(m.edits, o.eventIndex).(remove := EditMap.Pending(m.edits, o.eventIndex).remove + (if o.size == t then 2 else 0))
      && EditMap.Pending(r.edits, o.eventIndex + 2)
         == EditMap.Pending(m.edits, o.eventIndex + 2).(add := Opening(t, Shortened(o, t).endPoint, o.endPoint) + EditMap.Pending(m.edits, o.eventIndex + 2).add)
      && EditMap.Pending(r.edits, c.eventIndex)
         == EditMap.Edit(c.eventIndex, EditMap.Pending(m.edits, c.eventIndex).remove + (if c.size == t then 2 else 0),
                         EditMap.Pending(m.edits, c.eventIndex).add + Closing(t, c.startPoint, Advanced(c, t).startPoint))
    ensures o.eventIndex + 2 == c.eventIndex ==>
      && EditMap.Pending(r.edits, o.eventIndex)
         == EditMap.Pending(m.edits, o.eventIndex).(remove := EditMap.Pending(m.edits, o.eventIndex).remove + (if o.size == t then 2 else 0))
      && EditMap.Pending(r.edits, c.eventIndex)
         == EditMap.Edit(c.eventIndex, EditMap.Pending(m.edits, c.eventIndex).remove + (if c.size == t then 2 else 0),
                         Opening(t, Shortened(o, t).endPoint, o.endPoint)
                         + EditMap.Pending(m.edits, c.eventIndex).add
                         + Closing(t, c.startPoint, Advanced(c, t).startPoint))
  {
    var m1 := RemoveSpent(m, c.eventIndex, c.size == t);
    var m2 := RemoveSpent(m1, o.eventIndex, o.size == t);
    var m3 := EditMap.AddBefore(m2, o.eventIndex + 2, 0, Opening(t, Shortened(o, t).endPoint, o.endPoint)).value;
    EditMap.Add(m3, c.eventIndex, 0, Closing(t, c.startPoint, Advanced(c, t).startPoint)).value
  }

  /** Removes the enter and exit of a sequence at `at` when it is spent. */
  function RemoveSpent(m: EditMap.EditMap<Linked>, at: nat, spent: bool): (r: EditMap.EditMap<Linked>)
    requires !m.consumed && EditMap.DistinctAts(m.edits)
    ensures !r.consumed && EditMap.DistinctAts(r.edits)
    ensures EditMap.Pending(r.edits, at)
      == EditMap.Pending(m.edits, at).(remove := EditMap.Pending(m.edits, at).remove + (if spent then 2 else 0))
    ensures forall x: nat :: x != at ==> EditMap.Pending(r.edits, x) == EditMap.Pending(m.edits, x)
  {
    assert EditMap.Pending(m.edits, at).add + [] == EditMap.Pending(m.edits, at).add;
    if spent then EditMap.Add(m, at, 2, []).value else m
  }

  /** The event list after a match: the kept closer's enter moves forward
      and the kept opener's exit moves back. */
  function PairEvents(events: seq<Linked>, o: Sequence, c: Sequence, t: nat): (r: seq<Linked>)
    requires PlacedIn(o, |events|) && PlacedIn(c, |events|)
    requires t <= o.size && t <= c.size && t <= o.endPoint.column && t <= o.endPoint.index
    ensures |r| == |events|
    ensures forall k :: 0 <= k < |events| ==>
      r[k].data.kind == events[k].data.kind && r[k].data.name == events[k].data.name
    ensures forall k :: 0 <= k < |events| && k != c.eventIndex && k != o.eventIndex + 1 ==> r[k] == events[k]
    ensures o.size != t ==> r[o.eventIndex + 1].data.point == Shortened(o, t).endPoint
    ensures c.size != t && c.eventIndex != o.eventIndex + 1 ==> r[c.eventIndex].data.point == Advanced(c, t).startPoint
    ensures o.size == t && c.size == t ==> r == events
  {
    var e1 := if c.size == t then events else SetPoint(events, c.eventIndex, Advanced(c, t).startPoint);
    if o.size == t then e1 else SetPoint(e1, o.eventIndex + 1, Shortened(o, t).endPoint)
  }

  /** One match of the opener at `open` with the closer at `close`: the
      sequence list, events and edit map afterwards, and the index the
      outer loop continues at.  Taking more markers than a side has, or
      moving the opener's end before column zero, panics. */
  function Pair(st: State, open: nat, close: nat): (r: Result<(State, nat), Panic>)
    requires Placed(st) && open < close < |st.seqs|
    ensures var t := TakeCount(st.seqs[open], st.seqs[close]);
      r.Err? <==> st.seqs[open].size == 0 || st.seqs[close].size == 0 || st.seqs[open].endPoint.column < t
    ensures r.Err? ==> r.error == Underflow
    ensures r.Ok? ==>
      var t := TakeCount(st.seqs[open], st.seqs[close]);
      && Placed(r.value.0)
      && r.value.0.seqs == PairSeqs(st.seqs, open, close, t).0
      && r.value.1 == PairSeqs(st.seqs, open, close, t).1
      && r.value.0.events == PairEvents(st.events, st.seqs[open], st.seqs[close], t)
      && r.value.0.edits == PairEdits(st.edits, st.seqs[open], st.seqs[close], t)
      && SumSizes(r.value.0.seqs) + 2 * t == SumSizes(st.seqs)
    ensures AllSound(st.seqs) ==> r.Ok? && AllSound(r.value.0.seqs)
  {
    var o := st.seqs[open];
    var c := st.seqs[close];
    var t := TakeCount(o, c);
    if o.size == 0 || c.size == 0 || o.endPoint.column < t then Err(Underflow)
    else
      assert PlacedIn(o, |st.events|) && PlacedIn(c, |st.events|);
      var p := PairSeqs(st.seqs, open, close, t);
      PairKeepsPlaced(st.seqs, open, close, t, |st.events|);
      PairConservesMarkers(st.seqs, open, close, t);
      PairKeepsSound(st.seqs, open, close, t);
      Ok((State(p.0, PairEvents(st.events, o, c, t), PairEdits(st.edits, o, c, t)), p.1))
  }

  // ---------------------------------------------------------------------
  // The matching loop

  /** A match made by the loop: event indices of the opener and closer, the
      markers taken from each, and the marker and depth both sides share. */
  datatype Pairing = Pairing(openAt: nat, closeAt: nat, take: nat, marker: byte, balance: nat)

  /** The match `open`/`close` of `seqs` taking `t` markers. */
  function PairingOf(seqs: seq<Sequence>, open: nat, close: nat, t: nat): (q: Pairing)
    requires open < |seqs| && close < |seqs|
    ensures q.openAt == seqs[open].eventIndex && q.closeAt == seqs[close].eventIndex && q.take == t
  {
    Pairing(seqs[open].eventIndex, seqs[close].eventIndex, t, seqs[open].marker, seqs[open].balance)
  }

  /** `x` is what became of some sequence of `seqs0`. */
  predicate DerivedFromSome(x: Sequence, seqs0: seq<Sequence>) {
    exists i :: 0 <= i < |seqs0| && Derived(x, seqs0[i])
  }

  /** Every sequence of `seqs` is what became of some sequence of `seqs0`. */
  predicate DescendsFrom(seqs: seq<Sequence>, seqs0: seq<Sequence>) {
    forall k :: 0 <= k < |seqs| ==> DerivedFromSome(seqs[k], seqs0)
  }

  /** The opener of `p` is a sequence of `seqs0` that could open, with the
      match's marker and depth. */
  predicate OpenerIn(p: Pairing, seqs0: seq<Sequence>) {
    exists i :: 0 <= i < |seqs0| && seqs0[i].eventIndex == p.openAt
      && seqs0[i].open && seqs0[i].marker == p.marker && seqs0[i].balance == p.balance
  }

  /** The closer of `p` is a sequence of `seqs0` that could close, with the
      match's marker and depth. */
  predicate CloserIn(p: Pairing, seqs0: seq<Sequence>) {
    exists j :: 0 <= j < |seqs0| && seqs0[j].eventIndex == p.closeAt
      && seqs0[j].close && seqs0[j].marker == p.marker && seqs0[j].balance == p.balance
  }

  /** Every match pairs an opener with a closer of the same marker and
      depth, both taken from `seqs0`. */
  predicate Witnessed(log: seq<Pairing>, seqs0: seq<Sequence>) {
    forall p :: p in log ==> OpenerIn(p, seqs0) && CloserIn(p, seqs0)
  }

  /** Every list descends from itself. */
  lemma DescendsFromSelf(seqs: seq<Sequence>)
    ensures DescendsFrom(seqs, seqs)
  {
    forall k | 0 <= k < |seqs| ensures DerivedFromSome(seqs[k], seqs) {
      assert Derived(seqs[k], seqs[k]);
    }
  }

  /** `Derived` composes. */
  lemma DerivedTrans(x: Sequence, y: Sequence, z: Sequence)
    requires Derived(x, y) && Derived(y, z)
    ensures Derived(x, z)
  {
  }

  /** A match of sequences descended from `seqs0` is witnessed in `seqs0`,
      and what it leaves still descends from `seqs0`. */
  lemma WitnessStep(seqs0: seq<Sequence>, seqs: seq<Sequence>, open: nat, close: nat, t: nat, log: seq<Pairing>)
    requires Matchable(seqs, open, close) && seqs[close].close
    requires t <= seqs[open].size && t <= seqs[close].size
    requires t <= seqs[open].endPoint.column && t <= seqs[open].endPoint.index
    requires DescendsFrom(seqs, seqs0) && Witnessed(log, seqs0)
    ensures DescendsFrom(PairSeqs(seqs, open, close, t).0, seqs0)
    ensures Witnessed(log + [PairingOf(seqs, open, close, t)], seqs0)
  {
    var q := PairingOf(seqs, open, close, t);
    var i :| 0 <= i < |seqs0| && Derived(seqs[open], seqs0[i]);
    var j :| 0 <= j < |seqs0| && Derived(seqs[close], seqs0[j]);
    assert OpenerIn(q, seqs0);
    assert CloserIn(q, seqs0);
    forall p | p in log + [q] ensures OpenerIn(p, seqs0) && CloserIn(p, seqs0) {
      if p != q { assert p in log; }
    }
    var r := PairSeqs(seqs, open, close, t).0;
    forall k | 0 <= k < |r| ensures DerivedFromSome(r[k], seqs0) {
      PairOrigin(seqs, open, close, t, k);
      var o := Origin(seqs, open, close, t, k);
      var i0 :| 0 <= i0 < |seqs0| && Derived(seqs[o], seqs0[i0]);
      DerivedTrans(r[k], seqs[o], seqs0[i0]);
    }
  }

  /** Markers taken over all matches, counted on one side. */
  function Takes(log: seq<Pairing>): nat
    decreases |log|
  {
    if |log| == 0 then 0 else Takes(log[..|log| - 1]) + log[|log| - 1].take
  }

  /** Two matches whose spans overlap without one containing the other. */
  predicate Crossing(p: Pairing, q: Pairing) {
    || (p.openAt < q.openAt < p.closeAt < q.closeAt)
    || (q.openAt < p.openAt < q.closeAt < p.closeAt)
  }

  predicate NoCrossing(log: seq<Pairing>) {
    forall a, b :: 0 <= a < b < |log| ==> !Crossing(log[a], log[b])
  }

  /** Nothing strictly inside a recorded match can still open. */
  predicate ShutInside(log: seq<Pairing>, seqs: seq<Sequence>) {
    forall p, i :: p in log && 0 <= i < |seqs| && p.openAt < seqs[i].eventIndex < p.closeAt ==> !seqs[i].open
  }

  /** Every recorded match closes at or before the sequences from `close` on. */
  predicate ClosedBefore(log: seq<Pairing>, seqs: seq<Sequence>, close: nat) {
    forall p, j :: p in log && close <= j < |seqs| ==> p.closeAt <= seqs[j].eventIndex
  }

  /** A match keeps the nesting facts: the span it closes is shut, the loop
      continues at or after its closer, and it crosses no earlier match. */
  lemma NestStep(seqs: seq<Sequence>, open: nat, close: nat, t: nat, log: seq<Pairing>)
    requires open < close < |seqs|
    requires t <= seqs[open].size && t <= seqs[close].size
    requires t <= seqs[open].endPoint.column && t <= seqs[open].endPoint.index
    requires InEventOrder(seqs) && seqs[open].open
    requires ShutInside(log, seqs) && ClosedBefore(log, seqs, close) && NoCrossing(log)
    ensures var q := PairingOf(seqs, open, close, t);
            var p := PairSeqs(seqs, open, close, t);
      && ShutInside(log + [q], p.0)
      && ClosedBefore(log + [q], p.0, p.1)
      && NoCrossing(log + [q])
  {
    var q := PairingOf(seqs, open, close, t);
    var p := PairSeqs(seqs, open, close, t);
    var log' := log + [q];
    forall x, i | x in log' && 0 <= i < |p.0| && x.openAt < p.0[i].eventIndex < x.closeAt
      ensures !p.0[i].open
    {
      PairOrigin(seqs, open, close, t, i);
      var oi := Origin(seqs, open, close, t, i);
      if x != q {
        assert x in log;
      }
    }
    forall x, j | x in log' && p.1 <= j < |p.0| ensures x.closeAt <= p.0[j].eventIndex {
      PairOrigin(seqs, open, close, t, j);
      var oj := Origin(seqs, open, close, t, j);
      if oj > close {
        assert seqs[close].eventIndex < seqs[oj].eventIndex;
      }
      if x != q {
        assert x in log;
      }
    }
    forall a, b | 0 <= a < b < |log'| ensures !Crossing(log'[a], log'[b]) {
      if b < |log| {
        assert log'[a] == log[a] && log'[b] == log[b];
      } else {
        assert log'[a] == log[a] && log[a] in log;
      }
    }
  }

  lemma TakesAppend(log: seq<Pairing>, q: Pairing)
    ensures Takes(log + [q]) == Takes(log) + q.take
  {
    assert (log + [q])[..|log|] == log;
  }

  /** Kinds and names of the events agree. */
  predicate SameShape(a: seq<Linked>, b: seq<Linked>) {
    |a| == |b| && forall k :: 0 <= k < |a| ==> a[k].data.kind == b[k].data.kind && a[k].data.name == b[k].data.name
  }

  /** What the outer loop keeps true before looking at the sequence at
      `close`, with `log` the matches made so far from `st0`. */
  predicate LoopKeeps(st0: State, st: State, close: nat, log: seq<Pairing>) {
    && Placed(st) && InEventOrder(st.seqs) && SameShape(st.events, st0.events)
    && SumSizes(st.seqs) + 2 * Takes(log) == SumSizes(st0.seqs)
    && (AllSound(st0.seqs) ==> AllSound(st.seqs))
    && (|log| == 0 ==> st == st0)
    && (forall p :: p in log ==> p.openAt < p.closeAt && 1 <= p.take <= 2)
    && NoCrossing(log) && ShutInside(log, st.seqs) && ClosedBefore(log, st.seqs, close)
    && DescendsFrom(st.seqs, st0.seqs) && Witnessed(log, st0.seqs)
  }

  /** One match made by the outer loop keeps what the loop keeps, and
      spends markers. */
  lemma MatchStep(st0: State, st: State, open: nat, close: nat, log: seq<Pairing>, next: (State, nat))
    requires LoopKeeps(st0, st, close, log) && Matchable(st.seqs, open, close) && st.seqs[close].close
    requires Pair(st, open, close) == Ok(next)
    ensures var t := TakeCount(st.seqs[open], st.seqs[close]);
      && LoopKeeps(st0, next.0, next.1, log + [PairingOf(st.seqs, open, close, t)])
      && SumSizes(next.0.seqs) < SumSizes(st.seqs)
  {
    var t := TakeCount(st.seqs[open], st.seqs[close]);
    var q := PairingOf(st.seqs, open, close, t);
    assert PlacedIn(st.seqs[open], |st.events|);
    NestStep(st.seqs, open, close, t, log);
    WitnessStep(st0.seqs, st.seqs, open, close, t, log);
    PairKeepsOrder(st.seqs, open, close, t);
    TakesAppend(log, q);
    forall p | p in log + [q] ensures p.openAt < p.closeAt && 1 <= p.take <= 2 {
      if p != q { assert p in log; }
    }
  }

  /** What the outer loop computes from the sequence at `close` on: a
      sequence that can close and accepts some opener is paired with the
      nearest one, and the loop goes on where `Pair` says; otherwise it
      moves to the next sequence. */
  function Matches(st: State, close: nat): (r: Result<State, Panic>)
    requires Placed(st)
    ensures r.Ok? ==> Placed(r.value) && SumSizes(r.value.seqs) <= SumSizes(st.seqs)
    decreases SumSizes(st.seqs), |st.seqs| - close
  {
    if close >= |st.seqs| then Ok(st)
    else if st.seqs[close].close && NearestOpener(st.seqs, close).Some? then
      var open := NearestOpener(st.seqs, close).value;
      match Pair(st, open, close)
      case Err(e) => Err(e)
      case Ok(next) => Matches(next.0, next.1)
    else Matches(st, close + 1)
  }

  /** When some sequence from `close` on can close and accepts an opener,
      the loop spends markers. */
  lemma {:induction false} MatchesSpends(st: State, close: nat, o: nat, c: nat)
    requires Placed(st)
    requires close <= c < |st.seqs| && st.seqs[c].close && Matchable(st.seqs, o, c)
    ensures Matches(st, close).Ok? ==> SumSizes(Matches(st, close).value.seqs) < SumSizes(st.seqs)
    decreases |st.seqs| - close
  {
    if st.seqs[close].close && NearestOpener(st.seqs, close).Some? {
    } else {
      assert c != close;
      MatchesSpends(st, close + 1, o, c);
    }
  }

  /** A match the loop makes is the step `Matches` takes. */
  lemma MatchesPairs(st: State, open: nat, close: nat, next: (State, nat))
    requires Placed(st) && close < |st.seqs| && st.seqs[close].close
    requires NearestOpener(st.seqs, close) == Some(open) && Pair(st, open, close) == Ok(next)
    ensures Matches(st, close) == Matches(next.0, next.1)
  {
  }

  /** A match that panics makes `Matches` panic. */
  lemma MatchesFails(st: State, open: nat, close: nat)
    requires Placed(st) && close < |st.seqs| && st.seqs[close].close
    requires NearestOpener(st.seqs, close) == Some(open) && Pair(st, open, close).Err?
    ensures Matches(st, close) == Err(Pair(st, open, close).error)
  {
  }

  /** A sequence that cannot close, or accepts no opener, is passed over. */
  lemma MatchesSkips(st: State, close: nat)
    requires Placed(st) && close < |st.seqs|
    requires !(st.seqs[close].close && NearestOpener(st.seqs, close).Some?)
    ensures Matches(st, close) == Matches(st, close + 1)
  {
  }

  /** Passing over a sequence keeps what the loop keeps. */
  lemma SkipKeeps(st0: State, st: State, close: nat, log: seq<Pairing>)
    requires LoopKeeps(st0, st, close, log) && close < |st.seqs|
    ensures LoopKeeps(st0, st, close + 1, log)
  {
  }

  /** One turn of the outer loop at the sequence at `close`: a match with
      the nearest opener it accepts, or a move to the next sequence. */
  method MatchOnce(ghost st0: State, st: State, close: nat, ghost log: seq<Pairing>)
    returns (r: Result<(State, nat), Panic>, ghost log': seq<Pairing>)
    requires LoopKeeps(st0, st, close, log) && close < |st.seqs|
    ensures r.Err? ==> r.error == Underflow && Matches(st, close) == Err(r.error) && !AllSound(st.seqs) && log' == log
    ensures r.Ok? ==> LoopKeeps(st0, r.value.0, r.value.1, log')
    ensures r.Ok? ==> Matches(r.value.0, r.value.1) == Matches(st, close)
    ensures r.Ok? ==> SumSizes(r.value.0.seqs) < SumSizes(st.seqs)
                      || (r.value.0 == st && r.value.1 == close + 1 && log' == log)
  {
    log' := log;
    if st.seqs[close].close {
      var found := FindOpener(st.seqs, close);
      if found.Some? {
        var open := found.value;
        var step := Pair(st, open, close);
        if step.Err? {
          MatchesFails(st, open, close);
          return Err(step.error), log;
        }
        MatchesPairs(st, open, close, step.value);
        MatchStep(st0, st, open, close, log, step.value);
        log' := log + [PairingOf(st.seqs, open, close, TakeCount(st.seqs[open], st.seqs[close]))];
        return Ok(step.value), log';
      }
    }
    MatchesSkips(st, close);
    SkipKeeps(st0, st, close, log);
    return Ok((st, close + 1)), log;
  }

  /** The loop itself, with what it keeps at its exit. */
  method MatchLoop(st0: State) returns (r: Result<State, Panic>, ghost log: seq<Pairing>)
    requires Placed(st0) && InEventOrder(st0.seqs)
    ensures r == Matches(st0, 0)
    ensures r.Err? ==> r.error == Underflow
    ensures r.Ok? ==> LoopKeeps(st0, r.value, |r.value.seqs|, log)
    ensures r.Err? ==> !AllSound(st0.seqs) && NoCrossing(log) && Witnessed(log, st0.seqs)
                       && forall p :: p in log ==> p.openAt < p.closeAt && 1 <= p.take <= 2
  {
    var st := st0;
    var close: nat := 0;
    log := [];
    DescendsFromSelf(st0.seqs);
    while close < |st.seqs|
      invariant LoopKeeps(st0, st, close, log)
      invariant Matches(st, close) == Matches(st0, 0)
      decreases SumSizes(st.seqs), |st.seqs| - close
    {
      var step;
      step, log := MatchOnce(st0, st, close, log);
      if step.Err? {
        return Err(step.error), log;
      }
      st, close := step.value.0, step.value.1;
    }
    return Ok(st), log;
  }

  /** The outer loop of `resolve`: every sequence that can close is matched
      with the nearest acceptable opener before it, as often as markers
      last.  The ghost log lists the matches made. */
  method MatchAll(st0: State) returns (r: Result<State, Panic>, ghost log: seq<Pairing>)
    requires Placed(st0) && InEventOrder(st0.seqs)
    ensures r == Matches(st0, 0)
    ensures r.Ok? && (exists o, c :: 0 <= c < |st0.seqs| && st0.seqs[c].close && Matchable(st0.seqs, o, c)) ==> |log| > 0
    ensures r.Err? ==> r.error == Underflow
    ensures AllSound(st0.seqs) ==> r.Ok?
    ensures r.Ok? ==> Placed(r.value) && InEventOrder(r.value.seqs)
    ensures r.Ok? ==> SameShape(r.value.events, st0.events)
    ensures r.Ok? ==> SumSizes(r.value.seqs) + 2 * Takes(log) == SumSizes(st0.seqs)
    ensures r.Ok? && |log| == 0 ==> r.value == st0
    ensures forall p :: p in log ==> p.openAt < p.closeAt && 1 <= p.take <= 2
    ensures NoCrossing(log)
    ensures Witnessed(log, st0.seqs)
    ensures r.Ok? ==> ShutInside(log, r.value.seqs) && DescendsFrom(r.value.seqs, st0.seqs)
  {
    r, log := MatchLoop(st0);
    if r.Ok? && exists o, c :: 0 <= c < |st0.seqs| && st0.seqs[c].close && Matchable(st0.seqs, o, c) {
      var o, c :| 0 <= c < |st0.seqs| && st0.seqs[c].close && Matchable(st0.seqs, o, c);
      MatchesSpends(st0, 0, o, c);
      assert |log| == 0 ==> Takes(log) == 0;
    }
  }

  // ---------------------------------------------------------------------
  // Leftovers and the whole resolver

  /** `e` renamed to data. */
  function AsData(e: Linked): Linked {
    e.(data := e.data.(name := Data))
  }

  /** Event `k` is the enter or exit of one of `seqs`. */
  predicate Covered(seqs: seq<Sequence>, k: nat) {
    exists i :: 0 <= i < |seqs| && (seqs[i].eventIndex == k || seqs[i].eventIndex + 1 == k)
  }

  lemma CoveredStep(seqs: seq<Sequence>, n: nat)
    requires n < |seqs|
    ensures forall k: nat :: Covered(seqs[..n + 1], k) <==>
      Covered(seqs[..n], k) || k == seqs[n].eventIndex || k == seqs[n].eventIndex + 1
  {
    forall k: nat ensures Covered(seqs[..n + 1], k) <==>
      Covered(seqs[..n], k) || k == seqs[n].eventIndex || k == seqs[n].eventIndex + 1
    {
      if Covered(seqs[..n], k) {
        var i :| 0 <= i < n && (seqs[..n][i].eventIndex == k || seqs[..n][i].eventIndex + 1 == k);
        assert seqs[..n + 1][i] == seqs[i];
      }
      if k == seqs[n].eventIndex || k == seqs[n].eventIndex + 1 {
        assert seqs[..n + 1][n] == seqs[n];
      }
      if Covered(seqs[..n + 1], k) {
        var i :| 0 <= i < n + 1 && (seqs[..n + 1][i].eventIndex == k || seqs[..n + 1][i].eventIndex + 1 == k);
        if i < n {
          assert seqs[..n][i] == seqs[i];
        }
      }
    }
  }

  /** `events` with the enter and exit of every sequence of `seqs` turned
      into data. */
  function Marked(events: seq<Linked>, seqs: seq<Sequence>): (r: seq<Linked>)
    ensures |r| == |events|
  {
    seq(|events|, k requires 0 <= k < |events| => if Covered(seqs, k) then AsData(events[k]) else events[k])
  }

  /** The last loop of `resolve`: the enter and exit of every sequence left
      over become data; nothing else changes. */
  method MarkData(events: seq<Linked>, seqs: seq<Sequence>) returns (r: seq<Linked>)
    requires forall i :: 0 <= i < |seqs| ==> seqs[i].eventIndex + 1 < |events|
    ensures |r| == |events|
    ensures forall k :: 0 <= k < |events| ==> r[k] == if Covered(seqs, k) then AsData(events[k]) else events[k]
    ensures r == Marked(events, seqs)
  {
    r := events;
    var index: nat := 0;
    while index < |seqs|
      invariant index <= |seqs| && |r| == |events|
      invariant forall k :: 0 <= k < |events| ==> r[k] == if Covered(seqs[..index], k) then AsData(events[k]) else events[k]
    {
      var e := seqs[index].eventIndex;
      CoveredStep(seqs, index);
      r := r[e := AsData(r[e])];
      r := r[e + 1 := AsData(r[e + 1])];
      index := index + 1;
    }
    assert seqs[..index] == seqs;
  }

  /** With no sequences to cover, marking changes nothing. */
  lemma NothingCovered(events: seq<Linked>, r: seq<Linked>)
    requires |r| == |events|
    requires forall k :: 0 <= k < |events| ==> r[k] == if Covered([], k) then AsData(events[k]) else events[k]
    ensures r == events
  {
    forall k | 0 <= k < |events| ensures r[k] == events[k] {
      assert !Covered([], k);
    }
  }

  /** The events `resolve` leaves: the sequences collected, matched as
      `Matches` pairs them from a fresh edit map, the leftovers marked as
      data, and the recorded edits applied. */
  function Resolved(u: Unicode, bytes: seq<byte>, events: seq<Linked>): Result<seq<Linked>, Panic> {
    match Collect(u, bytes, events)
    case Err(e) => Err(e)
    case Ok(seqs) =>
      match Matches(State(seqs, events, EditMap.New()), 0)
      case Err(e) => Err(e)
      case Ok(st) =>
        match EditMap.Applied(st.edits.edits, Marked(st.events, st.seqs))
        case Err(e) => Err(Edit(e))
        case Ok(result) => Ok(result)
  }

  /** The attention resolver: collect the sequences, match them, turn what
      is left into data and apply the recorded edits. */
  method Resolve(u: Unicode, bytes: seq<byte>, events: seq<Linked>) returns (r: Result<seq<Linked>, Panic>)
    ensures r == Resolved(u, bytes, events)
    ensures Collect(u, bytes, events).Err? ==> r == Err(Collect(u, bytes, events).error)
    ensures Collect(u, bytes, events) == Ok([]) ==> r == Ok(events)
    ensures Collect(u, bytes, events).Ok? && AllSound(Collect(u, bytes, events).value) && r.Err? ==> r.error.Edit?
  {
    var seqs :- Collect(u, bytes, events);
    var st0 := State(seqs, events, EditMap.New());
    var matched, log := MatchAll(st0);
    if matched.Err? {
      return Err(matched.error);
    }
    var st := matched.value;
    var marked := MarkData(st.events, st.seqs);
    if |seqs| == 0 {
      NothingCovered(st.events, marked);
    }
    var consumed := EditMap.Consume(st.edits, marked);
    if consumed.Err? {
      return Err(Edit(consumed.error));
    }
    return Ok(consumed.value.1);
  }

  /** An event list without attention sequences, whose exits never
      outnumber its enters, collects nothing. */
  lemma {:induction false} NoSequencesCollectNothing(u: Unicode, bytes: seq<byte>, events: seq<Linked>, start: nat)
    requires start <= |events|
    requires forall k :: 0 <= k < |events| ==> !IsSequenceEnter(events[k])
    requires forall n :: 0 <= n <= |events| ==> Depth(events, n) >= 0
    ensures CollectFrom(u, bytes, events, start, Depth(events, start)) == Ok([])
    decreases |events| - start
  {
    if start < |events| {
      NoSequencesCollectNothing(u, bytes, events, start + 1);
    }
  }
}
