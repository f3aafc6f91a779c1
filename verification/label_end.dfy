/** Label end: links and images (src/construct/label_end.rs).

    A `]` closes the nearest label start (`[` or `![`) that is not yet
    balanced.  What follows decides what it is: a resource `(…)`, a full
    reference `[…]`, a collapsed reference `[]`, or a shortcut reference.
    A match moves the label into the media list; a failed attempt marks the
    label start balanced so it is not tried again.  Once the whole text is
    tokenized, the media resolver turns every match into link or image
    events and every label start left over into data.

    This file follows the revision of the tokenizer whose events carry an
    `event_type` and a `token_type`. */
module LabelEnd {
  import opened Results
  import Events
  import EditMap

  type Point = Events.Point

  datatype EventType = Enter | Exit

  /** The token types the modelled code creates or looks at; every other
      type is `Unlisted`. */
  datatype Token =
    | LabelLink
    | LabelImage
    | LabelEnd
    | LabelMarker
    | Label
    | LabelText
    | Link
    | Image
    | Data
    | Resource
    | Reference
    | ReferenceString
    | Unlisted(id: nat)

  datatype Event = Event(eventType: EventType, tokenType: Token, point: Point)

  /** A tokenizer event with its `previous`/`next` links. */
  type Linked = EditMap.Event<Event>

  /** A new event, without links. */
  function Plain(eventType: EventType, tokenType: Token, point: Point): Linked {
    EditMap.Event(Event(eventType, tokenType, point), None, None)
  }

  /** A normalized identifier. */
  type Id = string

  /** An opening `[` or `![`: indices of its enter and exit events, whether
      it was already tried (`balanced`) and whether it may no longer start a
      link (`inactive`). */
  datatype LabelStart = LabelStart(start: (nat, nat), balanced: bool, inactive: bool)

  /** A matched link or image: the events of its label start, of its label
      end through the end of the construct, and its identifier. */
  datatype Media = Media(start: (nat, nat), end: (nat, nat), id: Id)

  /** The parts of the tokenizer the construct reads and writes. */
  datatype Tokenizer = Tokenizer(
    events: seq<Linked>,
    stack: seq<LabelStart>,
    loose: seq<LabelStart>,
    mediaList: seq<Media>)

  /** The current character, or the end of the input. */
  datatype Code = Eof | Char(c: char)

  /** The parse state: whether the construct is enabled, the identifiers of
      all definitions, and `identify(from, to)`, the normalized identifier of
      the input between two byte offsets (serializing and normalizing are
      not part of this model). */
  datatype Env = Env(enabled: bool, definitions: set<Id>, identify: (nat, nat) -> Id)

  /** The label start a label end belongs to and the media it proposes. */
  datatype Info = Info(labelStartIndex: nat, media: Media)

  /** Why the construct panics: an index past the events, a subtraction
      below zero, or an `Option` that was unexpectedly empty. */
  datatype Panic = OutOfBounds | Underflow | Unwrap | Edit(reason: EditMap.Panic)

  // ---------------------------------------------------------------------
  // Start

  /** The nearest label start that is not balanced yet. */
  function TopUnbalanced(stack: seq<LabelStart>): (r: Option<nat>)
    ensures r.Some? ==> r.value < |stack| && !stack[r.value].balanced
    ensures r.Some? ==> forall k :: r.value < k < |stack| ==> stack[k].balanced
    ensures r.None? ==> forall k :: 0 <= k < |stack| ==> stack[k].balanced
    decreases |stack|
  {
    if |stack| == 0 then None
    else if !stack[|stack| - 1].balanced then Some(|stack| - 1)
    else TopUnbalanced(stack[..|stack| - 1])
  }

  /** `nok`: the label start at `i` is marked balanced; nothing else
      changes. */
  function Nok(tok: Tokenizer, i: nat): (r: Tokenizer)
    requires i < |tok.stack|
    ensures r.events == tok.events && r.loose == tok.loose && r.mediaList == tok.mediaList
    ensures |r.stack| == |tok.stack| && r.stack[i].balanced
    ensures r.stack[i].start == tok.stack[i].start && r.stack[i].inactive == tok.stack[i].inactive
    ensures forall k :: 0 <= k < |tok.stack| && k != i ==> r.stack[k] == tok.stack[k]
  {
    tok.(stack := tok.stack[i := tok.stack[i].(balanced := true)])
  }

  /** The events of `]`: a label end holding a label marker, from `here`
      to one byte further. */
  function LabelEndEvents(here: Point): seq<Linked> {
    var there := here.(column := here.column + 1, index := here.index + 1);
    [Plain(Enter, LabelEnd, here), Plain(Enter, LabelMarker, here),
     Plain(Exit, LabelMarker, there), Plain(Exit, LabelEnd, there)]
  }

  /** What `start` leaves: no label end (with the tokenizer as changed by
      `nok`, if at all), or the label end and the media it proposes. */
  datatype Started = Declined(tok: Tokenizer) | Opened(tok: Tokenizer, info: Info)

  /** `start`: at `]` with the construct enabled, take the nearest label
      start that is not balanced.  An inactive one (a link inside a link)
      is balanced and fails; an active one gets the label end events
      appended and a media proposal whose identifier is the text between
      the label start and the `]`. */
  function Start(env: Env, tok: Tokenizer, code: Code, here: Point): (r: Result<Started, Panic>)
    ensures code != Char(']') || !env.enabled || TopUnbalanced(tok.stack).None? ==> r == Ok(Declined(tok))
    ensures r.Err? <==>
      && code == Char(']') && env.enabled
      && TopUnbalanced(tok.stack).Some?
      && !tok.stack[TopUnbalanced(tok.stack).value].inactive
      && (tok.stack[TopUnbalanced(tok.stack).value].start.1 >= |tok.events| || |tok.events| == 0)
    ensures r.Ok? ==>
      (r.value.Opened? <==>
         && code == Char(']') && env.enabled && TopUnbalanced(tok.stack).Some?
         && !tok.stack[TopUnbalanced(tok.stack).value].inactive)
    ensures r.Ok? && r.value.Opened? ==>
      var i := r.value.info.labelStartIndex;
      && TopUnbalanced(tok.stack) == Some(i)
      && var ls := tok.stack[i];
      && !ls.balanced && !ls.inactive
      && r.value.info.media.start == ls.start
      && r.value.info.media.end == (|tok.events|, |tok.events| + 3)
      && ls.start.1 < |tok.events| && |tok.events| > 0
      && r.value.info.media.id
         == env.identify(tok.events[ls.start.1].data.point.index, tok.events[|tok.events| - 1].data.point.index)
      && r.value.tok == tok.(events := tok.events + LabelEndEvents(here))
    ensures r.Ok? && r.value.Declined? && r.value.tok != tok ==>
      var i := TopUnbalanced(tok.stack).value;
      && code == Char(']') && env.enabled && TopUnbalanced(tok.stack).Some?
      && tok.stack[i].inactive
      && r.value.tok == Nok(tok, i)
  {
    if code == Char(']') && env.enabled then
      match TopUnbalanced(tok.stack)
      case None => Ok(Declined(tok))
      case Some(i) =>
        var ls := tok.stack[i];
        if ls.inactive then Ok(Declined(Nok(tok, i)))
        else if ls.start.1 >= |tok.events| || |tok.events| == 0 then Err(OutOfBounds)
        else
          var labelEndStart := |tok.events|;
          var id := env.identify(tok.events[ls.start.1].data.point.index, tok.events[labelEndStart - 1].data.point.index);
          var media := Media(ls.start, (labelEndStart, labelEndStart + 3), id);
          Ok(Opened(tok.(events := tok.events + LabelEndEvents(here)), Info(i, media)))
    else Ok(Declined(tok))
  }

  // ---------------------------------------------------------------------
  // Ok

  /** Where `ok` panics: the media's start event, or, for a link, the start
      event of a label start below it, lies past the events, or there are
      no events at all. */
  predicate Misplaced(tok: Tokenizer, info: Info)
    requires info.labelStartIndex < |tok.stack|
  {
    || info.media.start.0 >= |tok.events|
    || |tok.events| == 0
    || (tok.events[info.media.start.0].data.tokenType == LabelLink
        && exists k :: 0 <= k < info.labelStartIndex && tok.stack[k].start.0 >= |tok.events|)
  }

  /** `ok`: the label start and everything after it leave the stack, those
      after it become loose, and the media is recorded, ending at the last
      event.  A link makes every link start still on the stack inactive:
      links cannot contain links.  The result also says how many codes the
      tokenizer gets back: none at the end of the input, else one. */
  function Found(tok: Tokenizer, info: Info, code: Code): (r: Result<(Tokenizer, nat), Panic>)
    requires info.labelStartIndex < |tok.stack|
    ensures r.Err? <==> Misplaced(tok, info)
    ensures r.Ok? ==>
      var i := info.labelStartIndex;
      var isLink := tok.events[info.media.start.0].data.tokenType == LabelLink;
      var t := r.value.0;
      && t.events == tok.events
      && t.loose == tok.loose + tok.stack[i + 1..]
      && t.mediaList == tok.mediaList + [info.media.(end := (info.media.end.0, |tok.events| - 1))]
      && |t.stack| == i
      && (forall k :: 0 <= k < i ==>
            && t.stack[k].start == tok.stack[k].start
            && t.stack[k].balanced == tok.stack[k].balanced
            && (t.stack[k].inactive <==>
                  tok.stack[k].inactive || (isLink && tok.events[tok.stack[k].start.0].data.tokenType == LabelLink)))
      && r.value.1 == (if code == Eof then 0 else 1)
  {
    var i := info.labelStartIndex;
    if info.media.start.0 >= |tok.events| then Err(OutOfBounds)
    else
      var isLink := tok.events[info.media.start.0].data.tokenType == LabelLink;
      var kept := tok.stack[..i];
      if isLink && exists k :: 0 <= k < i && tok.stack[k].start.0 >= |tok.events| then Err(OutOfBounds)
      else if |tok.events| == 0 then Err(Underflow)
      else
        var stack := if isLink then Deactivate(kept, tok.events) else kept;
        var media := info.media.(end := (info.media.end.0, |tok.events| - 1));
        Ok((Tokenizer(tok.events, stack, tok.loose + tok.stack[i + 1..], tok.mediaList + [media]),
            if code == Eof then 0 else 1))
  }

  /** Every link start becomes inactive. */
  function Deactivate(stack: seq<LabelStart>, events: seq<Linked>): (r: seq<LabelStart>)
    requires forall k :: 0 <= k < |stack| ==> stack[k].start.0 < |events|
    ensures |r| == |stack|
    ensures forall k :: 0 <= k < |stack| ==>
      r[k] == if events[stack[k].start.0].data.tokenType == LabelLink then stack[k].(inactive := true) else stack[k]
  {
    seq(|stack|, k requires 0 <= k < |stack| =>
      if events[stack[k].start.0].data.tokenType == LabelLink then stack[k].(inactive := true) else stack[k])
  }

  /** After a link matches, no link start left on the stack can start
      another link. */
  lemma NoLinkInLink(tok: Tokenizer, info: Info, code: Code)
    requires info.labelStartIndex < |tok.stack|
    requires Found(tok, info, code).Ok?
    requires tok.events[info.media.start.0].data.tokenType == LabelLink
    ensures var t := Found(tok, info, code).value.0;
      forall k :: 0 <= k < |t.stack| && t.events[t.stack[k].start.0].data.tokenType == LabelLink ==> t.stack[k].inactive
  {
  }

  // ---------------------------------------------------------------------
  // Full references

  predicate IsReferenceString(e: Linked, t: EventType) {
    e.data.tokenType == ReferenceString && e.data.eventType == t
  }

  /** The last reference-string enter before `n`. */
  function LastEnterBefore(events: seq<Linked>, n: nat): (r: Option<nat>)
    requires n <= |events|
    ensures r.Some? ==> r.value < n && IsReferenceString(events[r.value], Enter)
    ensures r.Some? ==> forall k :: r.value < k < n ==> !IsReferenceString(events[k], Enter)
    ensures r.None? ==> forall k :: 0 <= k < n ==> !IsReferenceString(events[k], Enter)
  {
    if n == 0 then None
    else if IsReferenceString(events[n - 1], Enter) then Some(n - 1)
    else LastEnterBefore(events, n - 1)
  }

  /** The first reference-string exit in `lo..hi`. */
  function FirstExitIn(events: seq<Linked>, lo: nat, hi: nat): (r: Option<nat>)
    requires lo <= hi <= |events|
    ensures r.Some? ==> lo <= r.value < hi && IsReferenceString(events[r.value], Exit)
    ensures r.Some? ==> forall k :: lo <= k < r.value ==> !IsReferenceString(events[k], Exit)
    ensures r.None? ==> forall k :: lo <= k < hi ==> !IsReferenceString(events[k], Exit)
    decreases hi - lo
  {
    if lo == hi then None
    else if IsReferenceString(events[lo], Exit) then Some(lo)
    else FirstExitIn(events, lo + 1, hi)
  }

  /** Whether the full reference just parsed names a definition: the
      reference string is the nearest one before the last event, ending at
      its first exit. */
  predicate FullReferenceDefined(env: Env, events: seq<Linked>)
    requires |events| > 0
    requires LastEnterBefore(events, |events| - 1).Some?
    requires FirstExitIn(events, LastEnterBefore(events, |events| - 1).value + 1, |events| - 1).Some?
  {
    var s := LastEnterBefore(events, |events| - 1).value;
    var e := FirstExitIn(events, s + 1, |events| - 1).value;
    env.identify(events[s].data.point.index, events[e].data.point.index) in env.definitions
  }

  /** The decision of `full_reference_after`: whether the identifier of the
      reference string is defined; an empty event list, or a missing
      reference-string enter or exit, panics. */
  function FullReference(env: Env, events: seq<Linked>): (r: Result<bool, Panic>)
    ensures r.Err? <==>
      || |events| == 0
      || LastEnterBefore(events, |events| - 1).None?
      || FirstExitIn(events, LastEnterBefore(events, |events| - 1).value + 1, |events| - 1).None?
    ensures r.Ok? ==> (r.value <==> FullReferenceDefined(env, events))
  {
    if |events| == 0 then Err(Underflow)
    else
      match LastEnterBefore(events, |events| - 1)
      case None => Err(Unwrap)
      case Some(s) =>
        match FirstExitIn(events, s + 1, |events| - 1)
        case None => Err(Unwrap)
        case Some(e) => Ok(env.identify(events[s].data.point.index, events[e].data.point.index) in env.definitions)
  }

  /** `full_reference_after`: walk back from the event before the last to
      the nearest reference-string enter, remembering the closest exit after
      it, and accept when the identifier between them is defined.  An empty
      event list, or a missing enter or exit, panics. */
  method FullReferenceAfter(env: Env, events: seq<Linked>) returns (r: Result<bool, Panic>)
    ensures r == FullReference(env, events)
  {
    if |events| == 0 {
      return Err(Underflow);
    }
    var index: nat := |events| - 1;
    var start: Option<nat> := None;
    var end: Option<nat> := None;
    while index > 0
      invariant index <= |events| - 1 && start.None?
      invariant forall k :: index <= k < |events| - 1 ==> !IsReferenceString(events[k], Enter)
      invariant end.Some? <==> FirstExitIn(events, index, |events| - 1).Some?
      invariant end.Some? ==> end.value == events[FirstExitIn(events, index, |events| - 1).value].data.point.index
    {
      index := index - 1;
      var event := events[index];
      if event.data.tokenType == ReferenceString {
        if event.data.eventType == Exit {
          end := Some(event.data.point.index);
        } else {
          start := Some(event.data.point.index);
          break;
        }
      }
    }
    if start.None? || end.None? {
      return Err(Unwrap);
    }
    return Ok(env.identify(start.value, end.value) in env.definitions);
  }

  // ---------------------------------------------------------------------
  // After `]`

  /** How an attempt at a sub-construct ended: it failed, and its events
      were dropped, or it parsed, adding events, and stopped before
      `follow`. */
  datatype Attempt = Failed | Parsed(added: seq<Linked>, follow: Code)

  /** The end of a label end: a match, with the number of codes given
      back, or no match. */
  datatype Outcome = Matched(tok: Tokenizer, back: nat) | NotMatched(tok: Tokenizer)

  /** A full reference attempt: the label parsed and its identifier is
      defined. */
  function FullAttempt(env: Env, events: seq<Linked>, reference: Attempt): Result<Attempt, Panic> {
    match reference
    case Failed => Ok(Failed)
    case Parsed(added, _) =>
      var defined :- FullReference(env, events + added);
      Ok(if defined then reference else Failed)
  }

  /** `ok` after an attempt that parsed `added`, stopping before `follow`. */
  function Finish(tok: Tokenizer, info: Info, added: seq<Linked>, follow: Code): Result<Outcome, Panic>
    requires info.labelStartIndex < |tok.stack|
  {
    var done :- Found(tok.(events := tok.events + added), info, follow);
    Ok(Matched(done.0, done.1))
  }

  /** Whether the label end matches: at `(` a resource that parses, or a
      defined label (then the label is a shortcut and the parenthesis is
      text); at `[` a full reference to a definition, or a defined label
      with a collapsed reference; anywhere else a defined label. */
  predicate Decision(env: Env, tok: Tokenizer, info: Info, code: Code, resource: Attempt, reference: Attempt, collapsed: Attempt) {
    var defined := info.media.id in env.definitions;
    if code == Char('(') then resource.Parsed? || defined
    else if code == Char('[') then
      (reference.Parsed? && FullReference(env, tok.events + reference.added) == Ok(true)) || (defined && collapsed.Parsed?)
    else defined
  }

  /** The events the matching attempt added: the resource at `(`, the full
      reference label or else the collapsed reference at `[`, none for a
      shortcut. */
  function MatchedEvents(env: Env, tok: Tokenizer, code: Code, resource: Attempt, reference: Attempt, collapsed: Attempt)
    : seq<Linked>
  {
    if code == Char('(') && resource.Parsed? then resource.added
    else if code == Char('[') && reference.Parsed? && FullReference(env, tok.events + reference.added) == Ok(true) then reference.added
    else if code == Char('[') && collapsed.Parsed? then collapsed.added
    else []
  }

  /** `after`, `reference_not_full` and the decisions after the attempts:
      the outcomes of the resource, full reference label and collapsed
      reference attempts are given. */
  function After(env: Env, tok: Tokenizer, info: Info, code: Code, resource: Attempt, reference: Attempt, collapsed: Attempt)
    : (r: Result<Outcome, Panic>)
    requires info.labelStartIndex < |tok.stack|
    ensures r.Err? <==>
      || (code == Char('[') && reference.Parsed? && FullReference(env, tok.events + reference.added).Err?)
      || (Decision(env, tok, info, code, resource, reference, collapsed)
          && Misplaced(tok.(events := tok.events + MatchedEvents(env, tok, code, resource, reference, collapsed)), info))
    ensures r.Ok? ==> (r.value.Matched? <==> Decision(env, tok, info, code, resource, reference, collapsed))
    ensures r.Ok? && r.value.Matched? ==>
      r.value.tok.events == tok.events + MatchedEvents(env, tok, code, resource, reference, collapsed)
    ensures r.Ok? && r.value.NotMatched? ==> r.value.tok == Nok(tok, info.labelStartIndex)
    ensures r.Ok? && r.value.Matched? ==>
      && |r.value.tok.events| > 0
      && r.value.tok.mediaList == tok.mediaList + [info.media.(end := (info.media.end.0, |r.value.tok.events| - 1))]
      && |r.value.tok.stack| == info.labelStartIndex
      && r.value.tok.loose == tok.loose + tok.stack[info.labelStartIndex + 1..]
    ensures r.Ok? && r.value.Matched? && code != Char('(') && code != Char('[') ==>
      r.value.tok.events == tok.events && r.value.back == (if code == Eof then 0 else 1)
    ensures r.Ok? && r.value.Matched? && code == Char('(') && resource.Parsed? ==>
      r.value.tok.events == tok.events + resource.added
  {
    var defined := info.media.id in env.definitions;
    if code == Char('(') then
      match resource
      case Parsed(added, follow) => Finish(tok, info, added, follow)
      case Failed => if defined then Finish(tok, info, [], code) else Ok(NotMatched(Nok(tok, info.labelStartIndex)))
    else if code == Char('[') then
      var full :- FullAttempt(env, tok.events, reference);
      match full
      case Parsed(added, follow) => Finish(tok, info, added, follow)
      case Failed =>
        if !defined then Ok(NotMatched(Nok(tok, info.labelStartIndex)))
        else match collapsed
          case Parsed(added, follow) => Finish(tok, info, added, follow)
          case Failed => Ok(NotMatched(Nok(tok, info.labelStartIndex)))
    else if defined then Finish(tok, info, [], code)
    else Ok(NotMatched(Nok(tok, info.labelStartIndex)))
  }

  // ---------------------------------------------------------------------
  // Resolving media: recording edits

  type Map = EditMap.EditMap<Linked>

  /** `adds` when `x` is `at`, else nothing. */
  function At(x: nat, at: nat, adds: seq<Linked>): seq<Linked> {
    if x == at then adds else []
  }

  /** A map still open for edits, with at most one edit per index. */
  predicate Open(m: Map) {
    !m.consumed && EditMap.DistinctAts(m.edits)
  }

  /** Records `adds` at `at`, removing `remove` events, after whatever is
      already recorded there. */
  function Append(m: Map, at: nat, remove: nat, adds: seq<Linked>): (r: Map)
    requires Open(m)
    ensures Open(r)
    ensures forall x: nat ::
              EditMap.Pending(r.edits, x)
              == EditMap.Edit(x, EditMap.Pending(m.edits, x).remove + (if x == at then remove else 0),
                              EditMap.Pending(m.edits, x).add + At(x, at, adds))
  {
    assert forall x: nat :: EditMap.Pending(m.edits, x).add + [] == EditMap.Pending(m.edits, x).add;
    EditMap.Add(m, at, remove, adds).value
  }

  /** Records `adds` at `at` before whatever is already recorded there. */
  function Prepend(m: Map, at: nat, adds: seq<Linked>): (r: Map)
    requires Open(m)
    ensures Open(r)
    ensures forall x: nat ::
              EditMap.Pending(r.edits, x)
              == EditMap.Edit(x, EditMap.Pending(m.edits, x).remove, At(x, at, adds) + EditMap.Pending(m.edits, x).add)
  {
    assert forall x: nat :: [] + EditMap.Pending(m.edits, x).add == EditMap.Pending(m.edits, x).add;
    EditMap.AddBefore(m, at, 0, adds).value
  }

  /** The label start's events exist, exit not before enter. */
  predicate LooseFits(events: seq<Linked>, ls: LabelStart) {
    ls.start.0 <= ls.start.1 < |events|
  }

  predicate AllLooseFit(events: seq<Linked>, left: seq<LabelStart>) {
    forall i :: 0 <= i < |left| ==> LooseFits(events, left[i])
  }

  lemma AllLooseFitCons(events: seq<Linked>, left: seq<LabelStart>)
    requires |left| > 0
    ensures AllLooseFit(events, left) <==> LooseFits(events, left[0]) && AllLooseFit(events, left[1..])
  {
    if LooseFits(events, left[0]) && AllLooseFit(events, left[1..]) {
      forall i | 0 < i < |left| ensures LooseFits(events, left[i]) {
        assert left[i] == left[1..][i - 1];
      }
    }
  }

  /** The data span that replaces a leftover label start. */
  function DataSpan(events: seq<Linked>, ls: LabelStart): seq<Linked>
    requires LooseFits(events, ls)
  {
    [Plain(Enter, Data, events[ls.start.0].data.point), Plain(Exit, Data, events[ls.start.1].data.point)]
  }

  /** Events the leftover label starts remove at `x`. */
  function LooseRemoved(events: seq<Linked>, left: seq<LabelStart>, x: nat): nat
    requires AllLooseFit(events, left)
    decreases |left|
  {
    if |left| == 0 then 0
    else
      AllLooseFitCons(events, left);
      (if x == left[0].start.0 then left[0].start.1 - left[0].start.0 + 1 else 0) + LooseRemoved(events, left[1..], x)
  }

  /** Events the leftover label starts add at `x`, in order. */
  function LooseAdded(events: seq<Linked>, left: seq<LabelStart>, x: nat): seq<Linked>
    requires AllLooseFit(events, left)
    decreases |left|
  {
    if |left| == 0 then []
    else
      AllLooseFitCons(events, left);
      At(x, left[0].start.0, DataSpan(events, left[0])) + LooseAdded(events, left[1..], x)
  }

  /** The first loop of `resolve_media`: every leftover label start is
      replaced by data.  An exit before its enter, or an index past the
      events, panics. */
  function LooseEdits(m: Map, events: seq<Linked>, left: seq<LabelStart>): (r: Result<Map, Panic>)
    requires Open(m)
    ensures r.Ok? <==> AllLooseFit(events, left)
    ensures r.Ok? ==> Open(r.value)
    ensures r.Ok? ==> forall x: nat ::
                        EditMap.Pending(r.value.edits, x)
                        == EditMap.Edit(x, EditMap.Pending(m.edits, x).remove + LooseRemoved(events, left, x),
                                        EditMap.Pending(m.edits, x).add + LooseAdded(events, left, x))
    decreases |left|
  {
    if |left| == 0 then
      assert forall x: nat :: EditMap.Pending(m.edits, x).add + [] == EditMap.Pending(m.edits, x).add;
      Ok(m)
    else
      AllLooseFitCons(events, left);
      if !LooseFits(events, left[0]) then Err(if left[0].start.1 < left[0].start.0 then Underflow else OutOfBounds)
      else
        var ls := left[0];
        var m1 := Append(m, ls.start.0, ls.start.1 - ls.start.0 + 1, DataSpan(events, ls));
        var r := LooseEdits(m1, events, left[1..]);
        if r.Ok? then LooseChain(m, m1, r.value, events, left); r else r
  }

  /** Recording the first leftover label start, then the rest, records them
      all. */
  lemma LooseChain(m: Map, m1: Map, r: Map, events: seq<Linked>, left: seq<LabelStart>)
    requires |left| > 0 && AllLooseFit(events, left)
    requires LooseFits(events, left[0]) && AllLooseFit(events, left[1..])
    requires forall x: nat ::
               EditMap.Pending(m1.edits, x)
               == EditMap.Edit(x, EditMap.Pending(m.edits, x).remove
                                    + (if x == left[0].start.0 then left[0].start.1 - left[0].start.0 + 1 else 0),
                               EditMap.Pending(m.edits, x).add + At(x, left[0].start.0, DataSpan(events, left[0])))
    requires forall x: nat ::
               EditMap.Pending(r.edits, x)
               == EditMap.Edit(x, EditMap.Pending(m1.edits, x).remove + LooseRemoved(events, left[1..], x),
                               EditMap.Pending(m1.edits, x).add + LooseAdded(events, left[1..], x))
    ensures forall x: nat ::
              EditMap.Pending(r.edits, x)
              == EditMap.Edit(x, EditMap.Pending(m.edits, x).remove + LooseRemoved(events, left, x),
                              EditMap.Pending(m.edits, x).add + LooseAdded(events, left, x))
  {
    forall x: nat
      ensures EditMap.Pending(r.edits, x)
              == EditMap.Edit(x, EditMap.Pending(m.edits, x).remove + LooseRemoved(events, left, x),
                              EditMap.Pending(m.edits, x).add + LooseAdded(events, left, x))
    {
      assert LooseAdded(events, left, x)
             == At(x, left[0].start.0, DataSpan(events, left[0])) + LooseAdded(events, left[1..], x);
      LooseAt(EditMap.Pending(m.edits, x), EditMap.Pending(m1.edits, x), EditMap.Pending(r.edits, x),
              if x == left[0].start.0 then left[0].start.1 - left[0].start.0 + 1 else 0, LooseRemoved(events, left[1..], x),
              At(x, left[0].start.0, DataSpan(events, left[0])), LooseAdded(events, left[1..], x), x);
    }
  }

  /** `LooseChain` at one index. */
  lemma LooseAt(p0: EditMap.Edit<Linked>, p1: EditMap.Edit<Linked>, p2: EditMap.Edit<Linked>,
                r0: nat, rr: nat, first: seq<Linked>, rest: seq<Linked>, x: nat)
    requires p1 == EditMap.Edit(x, p0.remove + r0, p0.add + first)
    requires p2 == EditMap.Edit(x, p1.remove + rr, p1.add + rest)
    ensures p2 == EditMap.Edit(x, p0.remove + (r0 + rr), p0.add + (first + rest))
  {
    assert p0.add + first + rest == p0.add + (first + rest);
  }

  /** Index of the first event inside the label: four events after a link
      start, six after an image start. */
  function TextEnterIndex(events: seq<Linked>, md: Media): nat
    requires md.start.0 < |events|
  {
    md.start.0 + if events[md.start.0].data.tokenType == LabelLink then 4 else 6
  }

  /** The label holds text: its first inner event is not the label end. */
  predicate HasText(events: seq<Linked>, md: Media)
    requires md.start.0 < |events|
  {
    TextEnterIndex(events, md) != md.end.0
  }

  /** Every event index the media step reads exists. */
  predicate MediaFits(events: seq<Linked>, md: Media) {
    && md.start.0 < |events|
    && (HasText(events, md) ==> TextEnterIndex(events, md) < |events| && md.end.0 < |events|)
    && md.end.0 + 3 < |events|
    && md.end.1 < |events|
  }

  /** The group enter and label enter at the label start. */
  function GroupEnters(events: seq<Linked>, md: Media): seq<Linked>
    requires md.start.0 < |events|
  {
    var e := events[md.start.0].data;
    [Plain(Enter, if e.tokenType == LabelLink then Link else Image, e.point), Plain(Enter, Label, e.point)]
  }

  /** The label text enter at `x`, when there is text. */
  function TextEnter(events: seq<Linked>, md: Media, x: nat): seq<Linked>
    requires MediaFits(events, md)
  {
    if HasText(events, md) then At(x, TextEnterIndex(events, md), [Plain(Enter, LabelText, events[TextEnterIndex(events, md)].data.point)])
    else []
  }

  /** The label text exit at `x`, when there is text. */
  function TextExit(events: seq<Linked>, md: Media, x: nat): seq<Linked>
    requires MediaFits(events, md)
  {
    if HasText(events, md) then At(x, md.end.0, [Plain(Exit, LabelText, events[md.end.0].data.point)]) else []
  }

  /** The label exit after the label end, at `x`. */
  function LabelExit(events: seq<Linked>, md: Media, x: nat): seq<Linked>
    requires MediaFits(events, md)
  {
    At(x, md.end.0 + 4, [Plain(Exit, Label, events[md.end.0 + 3].data.point)])
  }

  /** The group exit after the last event of the construct, at `x`: always
      a link exit, also for images. */
  function GroupExit(events: seq<Linked>, md: Media, x: nat): seq<Linked>
    requires MediaFits(events, md)
  {
    At(x, md.end.1 + 1, [Plain(Exit, Link, events[md.end.1].data.point)])
  }

  /** Everything one media adds at `x` after what is recorded there, in
      recording order; `withText` says whether the text enter is among it. */
  function MediaAdded(events: seq<Linked>, md: Media, x: nat, withText: bool): seq<Linked>
    requires MediaFits(events, md)
  {
    At(x, md.start.0, GroupEnters(events, md))
    + (if withText then TextEnter(events, md, x) else [])
    + TextExit(events, md, x)
    + LabelExit(events, md, x)
    + GroupExit(events, md, x)
  }

  /** The text events of one media.  With `textFirst`, the text enter goes
      before whatever is already recorded at its index; as written it goes
      after. */
  function TextStep(m: Map, events: seq<Linked>, md: Media, textFirst: bool): (r: Map)
    requires Open(m) && MediaFits(events, md)
    ensures Open(r)
    ensures forall x: nat ::
              EditMap.Pending(r.edits, x)
              == EditMap.Edit(x, EditMap.Pending(m.edits, x).remove,
                              (if textFirst then TextEnter(events, md, x) else [])
                              + EditMap.Pending(m.edits, x).add
                              + ((if textFirst then [] else TextEnter(events, md, x)) + TextExit(events, md, x)))
  {
    if HasText(events, md) then
      var enter := [Plain(Enter, LabelText, events[TextEnterIndex(events, md)].data.point)];
      var m2 := if textFirst then Prepend(m, TextEnterIndex(events, md), enter)
                else Append(m, TextEnterIndex(events, md), 0, enter);
      var r := Append(m2, md.end.0, 0, [Plain(Exit, LabelText, events[md.end.0].data.point)]);
      TextChain(m, m2, r, events, md, textFirst);
      r
    else
      assert forall x: nat :: [] + EditMap.Pending(m.edits, x).add + ([] + []) == EditMap.Pending(m.edits, x).add;
      m
  }

  lemma TextChain(m: Map, m2: Map, r: Map, events: seq<Linked>, md: Media, textFirst: bool)
    requires MediaFits(events, md) && HasText(events, md)
    requires var enter := [Plain(Enter, LabelText, events[TextEnterIndex(events, md)].data.point)];
      forall x: nat ::
        EditMap.Pending(m2.edits, x)
        == EditMap.Edit(x, EditMap.Pending(m.edits, x).remove,
                        if textFirst then At(x, TextEnterIndex(events, md), enter) + EditMap.Pending(m.edits, x).add
                        else EditMap.Pending(m.edits, x).add + At(x, TextEnterIndex(events, md), enter))
    requires forall x: nat ::
               EditMap.Pending(r.edits, x)
               == EditMap.Edit(x, EditMap.Pending(m2.edits, x).remove,
                               EditMap.Pending(m2.edits, x).add + TextExit(events, md, x))
    ensures forall x: nat ::
              EditMap.Pending(r.edits, x)
              == EditMap.Edit(x, EditMap.Pending(m.edits, x).remove,
                              (if textFirst then TextEnter(events, md, x) else [])
                              + EditMap.Pending(m.edits, x).add
                              + ((if textFirst then [] else TextEnter(events, md, x)) + TextExit(events, md, x)))
  {
    forall x: nat
      ensures EditMap.Pending(r.edits, x)
              == EditMap.Edit(x, EditMap.Pending(m.edits, x).remove,
                              (if textFirst then TextEnter(events, md, x) else [])
                              + EditMap.Pending(m.edits, x).add
                              + ((if textFirst then [] else TextEnter(events, md, x)) + TextExit(events, md, x)))
    {
      TextAt(EditMap.Pending(m.edits, x), EditMap.Pending(m2.edits, x), EditMap.Pending(r.edits, x),
             TextEnter(events, md, x), TextExit(events, md, x), x, textFirst);
    }
  }

  /** `TextChain` at one index. */
  lemma TextAt(p0: EditMap.Edit<Linked>, p1: EditMap.Edit<Linked>, p2: EditMap.Edit<Linked>,
               te: seq<Linked>, tx: seq<Linked>, x: nat, textFirst: bool)
    requires p1 == EditMap.Edit(x, p0.remove, if textFirst then te + p0.add else p0.add + te)
    requires p2 == EditMap.Edit(x, p1.remove, p1.add + tx)
    ensures p2 == EditMap.Edit(x, p0.remove, (if textFirst then te else []) + p0.add + ((if textFirst then [] else te) + tx))
  {
    if textFirst {
      assert te + p0.add + ([] + tx) == te + p0.add + tx;
    } else {
      assert [] + p0.add + (te + tx) == p0.add + te + tx;
    }
  }

  /** The second loop's body for one media. */
  function MediaStep(m: Map, events: seq<Linked>, md: Media, textFirst: bool): (r: Map)
    requires Open(m) && MediaFits(events, md)
    ensures Open(r)
    ensures forall x: nat ::
              EditMap.Pending(r.edits, x)
              == EditMap.Edit(x, EditMap.Pending(m.edits, x).remove,
                              (if textFirst then TextEnter(events, md, x) else [])
                              + EditMap.Pending(m.edits, x).add + MediaAdded(events, md, x, !textFirst))
  {
    var m1 := Append(m, md.start.0, 0, GroupEnters(events, md));
    var m3 := TextStep(m1, events, md, textFirst);
    var m4 := Append(m3, md.end.0 + 4, 0, [Plain(Exit, Label, events[md.end.0 + 3].data.point)]);
    var r := Append(m4, md.end.1 + 1, 0, [Plain(Exit, Link, events[md.end.1].data.point)]);
    MediaChain(m, m1, m3, m4, r, events, md, textFirst);
    r
  }

  lemma MediaChain(m: Map, m1: Map, m3: Map, m4: Map, r: Map, events: seq<Linked>, md: Media, textFirst: bool)
    requires MediaFits(events, md)
    requires forall x: nat ::
               EditMap.Pending(m1.edits, x)
               == EditMap.Edit(x, EditMap.Pending(m.edits, x).remove,
                               EditMap.Pending(m.edits, x).add + At(x, md.start.0, GroupEnters(events, md)))
    requires forall x: nat ::
               EditMap.Pending(m3.edits, x)
               == EditMap.Edit(x, EditMap.Pending(m1.edits, x).remove,
                               (if textFirst then TextEnter(events, md, x) else [])
                               + EditMap.Pending(m1.edits, x).add
                               + ((if textFirst then [] else TextEnter(events, md, x)) + TextExit(events, md, x)))
    requires forall x: nat ::
               EditMap.Pending(m4.edits, x)
               == EditMap.Edit(x, EditMap.Pending(m3.edits, x).remove,
                               EditMap.Pending(m3.edits, x).add + At(x, md.end.0 + 4, [Plain(Exit, Label, events[md.end.0 + 3].data.point)]))
    requires forall x: nat ::
               EditMap.Pending(r.edits, x)
               == EditMap.Edit(x, EditMap.Pending(m4.edits, x).remove,
                               EditMap.Pending(m4.edits, x).add + At(x, md.end.1 + 1, [Plain(Exit, Link, events[md.end.1].data.point)]))
    ensures forall x: nat ::
              EditMap.Pending(r.edits, x)
              == EditMap.Edit(x, EditMap.Pending(m.edits, x).remove,
                              (if textFirst then TextEnter(events, md, x) else [])
                              + EditMap.Pending(m.edits, x).add + MediaAdded(events, md, x, !textFirst))
  {
    forall x: nat
      ensures EditMap.Pending(r.edits, x).add
              == (if textFirst then TextEnter(events, md, x) else [])
                 + EditMap.Pending(m.edits, x).add + MediaAdded(events, md, x, !textFirst)
    {
      var pre := if textFirst then TextEnter(events, md, x) else [];
      var p := EditMap.Pending(m.edits, x).add;
      var ge := At(x, md.start.0, GroupEnters(events, md));
      var te := if textFirst then [] else TextEnter(events, md, x);
      var tx := TextExit(events, md, x);
      var le := LabelExit(events, md, x);
      var gx := GroupExit(events, md, x);
      MediaAt(EditMap.Pending(m.edits, x), EditMap.Pending(m1.edits, x), EditMap.Pending(m3.edits, x),
              EditMap.Pending(m4.edits, x), EditMap.Pending(r.edits, x), pre, ge, te, tx, le, gx, x);
      assert MediaAdded(events, md, x, !textFirst) == ge + te + tx + le + gx;
    }
  }

  /** `MediaChain` at one index. */
  lemma MediaAt(p0: EditMap.Edit<Linked>, p1: EditMap.Edit<Linked>, p3: EditMap.Edit<Linked>,
                p4: EditMap.Edit<Linked>, p5: EditMap.Edit<Linked>,
                pre: seq<Linked>, ge: seq<Linked>, te: seq<Linked>, tx: seq<Linked>, le: seq<Linked>, gx: seq<Linked>, x: nat)
    requires p1 == EditMap.Edit(x, p0.remove, p0.add + ge)
    requires p3 == EditMap.Edit(x, p1.remove, pre + p1.add + (te + tx))
    requires p4 == EditMap.Edit(x, p3.remove, p3.add + le)
    requires p5 == EditMap.Edit(x, p4.remove, p4.add + gx)
    ensures p5.add == pre + p0.add + (ge + te + tx + le + gx)
  {
    Reassociate(pre, p0.add, ge, te, tx, le, gx);
  }

  lemma Reassociate<T>(pre: seq<T>, p: seq<T>, ge: seq<T>, te: seq<T>, tx: seq<T>, le: seq<T>, gx: seq<T>)
    ensures pre + (p + ge) + (te + tx) + le + gx == pre + p + (ge + te + tx + le + gx)
  {
    assert pre + (p + ge) == pre + p + ge;
    assert pre + p + ge + (te + tx) == pre + p + ge + te + tx;
    assert ge + te + tx + le + gx == (((ge + te) + tx) + le) + gx;
  }

  predicate AllMediaFit(events: seq<Linked>, media: seq<Media>) {
    forall i :: 0 <= i < |media| ==> MediaFits(events, media[i])
  }

  lemma AllMediaFitCons(events: seq<Linked>, media: seq<Media>)
    requires |media| > 0
    ensures AllMediaFit(events, media) <==> MediaFits(events, media[0]) && AllMediaFit(events, media[1..])
  {
    if MediaFits(events, media[0]) && AllMediaFit(events, media[1..]) {
      forall i | 0 < i < |media| ensures MediaFits(events, media[i]) {
        assert media[i] == media[1..][i - 1];
      }
    }
  }

  /** The text enters `media` put before everything else at `x` when text
      enters go first: the last media's first. */
  function TextEnters(events: seq<Linked>, media: seq<Media>, x: nat): seq<Linked>
    requires AllMediaFit(events, media)
    decreases |media|
  {
    if |media| == 0 then []
    else
      AllMediaFitCons(events, media);
      TextEnters(events, media[1..], x) + TextEnter(events, media[0], x)
  }

  /** Everything else `media` add at `x`, in recording order. */
  function MediaAddedAll(events: seq<Linked>, media: seq<Media>, x: nat, withText: bool): seq<Linked>
    requires AllMediaFit(events, media)
    decreases |media|
  {
    if |media| == 0 then []
    else
      AllMediaFitCons(events, media);
      MediaAdded(events, media[0], x, withText) + MediaAddedAll(events, media[1..], x, withText)
  }

  /** The second loop of `resolve_media`: the events of every media.  An
      index past the events panics. */
  function MediaEdits(m: Map, events: seq<Linked>, media: seq<Media>, textFirst: bool): (r: Result<Map, Panic>)
    requires Open(m)
    ensures r.Ok? <==> AllMediaFit(events, media)
    ensures r.Ok? ==> Open(r.value)
    ensures r.Ok? ==> forall x: nat ::
                        EditMap.Pending(r.value.edits, x)
                        == EditMap.Edit(x, EditMap.Pending(m.edits, x).remove,
                                        (if textFirst then TextEnters(events, media, x) else [])
                                        + EditMap.Pending(m.edits, x).add
                                        + MediaAddedAll(events, media, x, !textFirst))
    decreases |media|
  {
    if |media| == 0 then
      assert forall x: nat :: [] + EditMap.Pending(m.edits, x).add + [] == EditMap.Pending(m.edits, x).add;
      Ok(m)
    else
      AllMediaFitCons(events, media);
      if !MediaFits(events, media[0]) then Err(OutOfBounds)
      else
        var m1 := MediaStep(m, events, media[0], textFirst);
        var r := MediaEdits(m1, events, media[1..], textFirst);
        if r.Ok? then MediaFold(m, m1, r.value, events, media, textFirst); r else r
  }

  lemma MediaFold(m: Map, m1: Map, r: Map, events: seq<Linked>, media: seq<Media>, textFirst: bool)
    requires |media| > 0 && AllMediaFit(events, media)
    requires MediaFits(events, media[0]) && AllMediaFit(events, media[1..])
    requires forall x: nat ::
               EditMap.Pending(m1.edits, x)
               == EditMap.Edit(x, EditMap.Pending(m.edits, x).remove,
                               (if textFirst then TextEnter(events, media[0], x) else [])
                               + EditMap.Pending(m.edits, x).add + MediaAdded(events, media[0], x, !textFirst))
    requires forall x: nat ::
               EditMap.Pending(r.edits, x)
               == EditMap.Edit(x, EditMap.Pending(m1.edits, x).remove,
                               (if textFirst then TextEnters(events, media[1..], x) else [])
                               + EditMap.Pending(m1.edits, x).add
                               + MediaAddedAll(events, media[1..], x, !textFirst))
    ensures forall x: nat ::
              EditMap.Pending(r.edits, x)
              == EditMap.Edit(x, EditMap.Pending(m.edits, x).remove,
                              (if textFirst then TextEnters(events, media, x) else [])
                              + EditMap.Pending(m.edits, x).add
                              + MediaAddedAll(events, media, x, !textFirst))
  {
    forall x: nat
      ensures EditMap.Pending(r.edits, x).add
              == (if textFirst then TextEnters(events, media, x) else [])
                 + EditMap.Pending(m.edits, x).add
                 + MediaAddedAll(events, media, x, !textFirst)
    {
      var restPre := if textFirst then TextEnters(events, media[1..], x) else [];
      var pre := if textFirst then TextEnter(events, media[0], x) else [];
      var p := EditMap.Pending(m.edits, x).add;
      var added := MediaAdded(events, media[0], x, !textFirst);
      var rest := MediaAddedAll(events, media[1..], x, !textFirst);
      assert (if textFirst then TextEnters(events, media, x) else []) == restPre + pre;
      assert MediaAddedAll(events, media, x, !textFirst) == added + rest;
      Regroup(restPre, pre, p, added, rest);
    }
  }

  lemma Regroup<T>(a: seq<T>, b: seq<T>, c: seq<T>, d: seq<T>, e: seq<T>)
    ensures a + (b + c + d) + e == (a + b) + c + (d + e)
  {
    assert a + (b + c + d) == a + b + c + d;
  }

  // ---------------------------------------------------------------------
  // Resolving media: the whole map

  /** The edits `resolve_media` records as written: the leftover label
      starts (loose ones, then those still on the stack) first, then the
      media, each text enter after whatever is recorded at its index. */
  function MediaMapAsWritten(tok: Tokenizer): (r: Result<Map, Panic>)
    ensures r.Ok? <==> AllLooseFit(tok.events, tok.loose + tok.stack) && AllMediaFit(tok.events, tok.mediaList)
    ensures r.Ok? ==> Open(r.value) && AsWrittenLayout(tok, r.value)
  {
    var m0: Map := EditMap.New();
    var m1 :- LooseEdits(m0, tok.events, tok.loose + tok.stack);
    assert forall x: nat :: [] + LooseAdded(tok.events, tok.loose + tok.stack, x) == LooseAdded(tok.events, tok.loose + tok.stack, x);
    MediaEdits(m1, tok.events, tok.mediaList, false)
  }

  /** At every index: what the leftover label starts remove, and their
      data, then every media event (label text enters included). */
  ghost predicate AsWrittenLayout(tok: Tokenizer, m: Map)
    requires AllLooseFit(tok.events, tok.loose + tok.stack) && AllMediaFit(tok.events, tok.mediaList)
  {
    forall x: nat ::
      EditMap.Pending(m.edits, x)
      == EditMap.Edit(x, LooseRemoved(tok.events, tok.loose + tok.stack, x),
                      LooseAdded(tok.events, tok.loose + tok.stack, x)
                      + MediaAddedAll(tok.events, tok.mediaList, x, true))
  }

  /** The edits `resolve_media` is meant to record: the media first, each
      text enter before whatever is recorded at its index, then the
      leftover label starts.  At every index the label text enters come
      first, then the other media events, then the data. */
  function MediaMap(tok: Tokenizer): (r: Result<Map, Panic>)
    ensures r.Ok? <==> AllLooseFit(tok.events, tok.loose + tok.stack) && AllMediaFit(tok.events, tok.mediaList)
    ensures r.Ok? ==> Open(r.value) && CorrectedLayout(tok, r.value)
  {
    var m0: Map := EditMap.New();
    var m1 :- MediaEdits(m0, tok.events, tok.mediaList, true);
    var r := LooseEdits(m1, tok.events, tok.loose + tok.stack);
    if r.Ok? then CorrectedPending(tok, m0, m1, r.value); r else r
  }

  /** At every index: what the leftover label starts remove, and the label
      text enters, then the other media events, then their data. */
  ghost predicate CorrectedLayout(tok: Tokenizer, m: Map)
    requires AllLooseFit(tok.events, tok.loose + tok.stack) && AllMediaFit(tok.events, tok.mediaList)
  {
    forall x: nat ::
      EditMap.Pending(m.edits, x)
      == EditMap.Edit(x, LooseRemoved(tok.events, tok.loose + tok.stack, x),
                      TextEnters(tok.events, tok.mediaList, x)
                      + MediaAddedAll(tok.events, tok.mediaList, x, false)
                      + LooseAdded(tok.events, tok.loose + tok.stack, x))
  }

  lemma CorrectedPending(tok: Tokenizer, m0: Map, m1: Map, m2: Map)
    requires AllLooseFit(tok.events, tok.loose + tok.stack) && AllMediaFit(tok.events, tok.mediaList)
    requires forall x: nat :: EditMap.Pending(m0.edits, x) == EditMap.Edit(x, 0, [])
    requires forall x: nat ::
               EditMap.Pending(m1.edits, x)
               == EditMap.Edit(x, EditMap.Pending(m0.edits, x).remove,
                               TextEnters(tok.events, tok.mediaList, x)
                               + EditMap.Pending(m0.edits, x).add
                               + MediaAddedAll(tok.events, tok.mediaList, x, false))
    requires forall x: nat ::
               EditMap.Pending(m2.edits, x)
               == EditMap.Edit(x, EditMap.Pending(m1.edits, x).remove + LooseRemoved(tok.events, tok.loose + tok.stack, x),
                               EditMap.Pending(m1.edits, x).add + LooseAdded(tok.events, tok.loose + tok.stack, x))
    ensures CorrectedLayout(tok, m2)
  {
    forall x: nat
      ensures EditMap.Pending(m2.edits, x)
              == EditMap.Edit(x, LooseRemoved(tok.events, tok.loose + tok.stack, x),
                              TextEnters(tok.events, tok.mediaList, x)
                              + MediaAddedAll(tok.events, tok.mediaList, x, false)
                              + LooseAdded(tok.events, tok.loose + tok.stack, x))
    {
      CorrectedAt(EditMap.Pending(m0.edits, x), EditMap.Pending(m1.edits, x), EditMap.Pending(m2.edits, x),
                  TextEnters(tok.events, tok.mediaList, x), MediaAddedAll(tok.events, tok.mediaList, x, false),
                  LooseAdded(tok.events, tok.loose + tok.stack, x), LooseRemoved(tok.events, tok.loose + tok.stack, x), x);
    }
  }

  lemma CorrectedAt(p0: EditMap.Edit<Linked>, p1: EditMap.Edit<Linked>, p2: EditMap.Edit<Linked>,
                    t: seq<Linked>, a: seq<Linked>, l: seq<Linked>, lr: nat, x: nat)
    requires p0 == EditMap.Edit(x, 0, [])
    requires p1 == EditMap.Edit(x, p0.remove, t + p0.add + a)
    requires p2 == EditMap.Edit(x, p1.remove + lr, p1.add + l)
    ensures p2 == EditMap.Edit(x, lr, t + a + l)
  {
    assert t + [] + a == t + a;
  }

  /** Apply recorded edits to the events of `tok`; the label start stack,
      the loose label starts and the media list are emptied. */
  method Apply(tok: Tokenizer, m: Map) returns (r: Result<Tokenizer, Panic>)
    requires Open(m)
    ensures r.Ok? ==> r.value.stack == [] && r.value.loose == [] && r.value.mediaList == []
    ensures EditMap.Fits(EditMap.Sort(m.edits), |tok.events|) ==>
      var sorted := EditMap.Sort(m.edits);
      (r.Ok? <==> EditMap.AdditionsUnlinked(sorted) && EditMap.AllRelinkOk(EditMap.Jumps(sorted), EditMap.Splice(sorted, tok.events, 0)))
      && (r.Ok? ==> r.value.events == EditMap.RelinkAll(EditMap.Jumps(sorted), EditMap.Splice(sorted, tok.events, 0)))
    ensures |m.edits| == 0 ==> r == Ok(Tokenizer(tok.events, [], [], []))
  {
    var done := EditMap.Consume(m, tok.events);
    if done.Err? {
      return Err(Edit(done.error));
    }
    return Ok(Tokenizer(done.value.1, [], [], []));
  }

  /** `resolve_media`: record the edits, then apply them. */
  method ResolveMedia(tok: Tokenizer) returns (r: Result<Tokenizer, Panic>)
    ensures MediaMap(tok).Err? ==> r == Err(MediaMap(tok).error)
    ensures r.Ok? ==> r.value.stack == [] && r.value.loose == [] && r.value.mediaList == []
    ensures MediaMap(tok).Ok? && EditMap.Fits(EditMap.Sort(MediaMap(tok).value.edits), |tok.events|) ==>
      var sorted := EditMap.Sort(MediaMap(tok).value.edits);
      (r.Ok? <==> EditMap.AdditionsUnlinked(sorted) && EditMap.AllRelinkOk(EditMap.Jumps(sorted), EditMap.Splice(sorted, tok.events, 0)))
      && (r.Ok? ==> r.value.events == EditMap.RelinkAll(EditMap.Jumps(sorted), EditMap.Splice(sorted, tok.events, 0)))
    ensures tok.loose + tok.stack == [] && tok.mediaList == [] ==> r == Ok(Tokenizer(tok.events, [], [], []))
  {
    var edits := MediaMap(tok);
    if edits.Err? {
      return Err(edits.error);
    }
    if tok.loose + tok.stack == [] && tok.mediaList == [] {
      NothingToResolve(tok);
    }
    r := Apply(tok, edits.value);
  }

  lemma NothingToResolve(tok: Tokenizer)
    requires tok.loose + tok.stack == [] && tok.mediaList == []
    ensures MediaMap(tok) == Ok(EditMap.New())
  {
  }

  // ---------------------------------------------------------------------
  // Order of the additions at one index

  predicate IsTextEnter(e: Linked) {
    e.data.eventType == Enter && e.data.tokenType == LabelText
  }

  predicate IsTextExit(e: Linked) {
    e.data.eventType == Exit && e.data.tokenType == LabelText
  }

  predicate IsGroupEnter(e: Linked) {
    e.data.eventType == Enter && (e.data.tokenType == Link || e.data.tokenType == Image)
  }

  predicate IsData(e: Linked) {
    e.data.tokenType == Data
  }

  /** No label text opens after a link or image has opened at the same
      index: the text of an outer media encloses a media its text starts
      with. */
  predicate TextEntersFirst(adds: seq<Linked>) {
    forall i, j :: 0 <= i < j < |adds| && IsGroupEnter(adds[i]) ==> !IsTextEnter(adds[j])
  }

  /** Data replacing a leftover label start comes after every media event
      recorded at the same index. */
  predicate DataLast(adds: seq<Linked>) {
    forall i, j :: 0 <= i < j < |adds| && IsData(adds[i]) ==> IsData(adds[j])
  }

  /** A media opens its label text exactly at the first event after its
      label start (4 events on for a link, 6 for an image) and closes it
      at its label end, and only when the label is not empty. */
  lemma LabelTextPlacement(events: seq<Linked>, md: Media, x: nat)
    requires MediaFits(events, md)
    ensures (exists k :: 0 <= k < |MediaAdded(events, md, x, true)| && IsTextEnter(MediaAdded(events, md, x, true)[k]))
            <==> HasText(events, md)
                 && x == md.start.0 + (if events[md.start.0].data.tokenType == LabelLink then 4 else 6)
    ensures (exists k :: 0 <= k < |MediaAdded(events, md, x, true)| && IsTextExit(MediaAdded(events, md, x, true)[k]))
            <==> HasText(events, md) && x == md.end.0
  {
    TextEnterPlacement(events, md, x);
    TextExitPlacement(events, md, x);
  }

  lemma TextEnterPlacement(events: seq<Linked>, md: Media, x: nat)
    requires MediaFits(events, md)
    ensures (exists k :: 0 <= k < |MediaAdded(events, md, x, true)| && IsTextEnter(MediaAdded(events, md, x, true)[k]))
            <==> HasText(events, md) && x == TextEnterIndex(events, md)
  {
    var g := At(x, md.start.0, GroupEnters(events, md));
    var te := TextEnter(events, md, x);
    var rest := TextExit(events, md, x) + LabelExit(events, md, x) + GroupExit(events, md, x);
    var adds := MediaAdded(events, md, x, true);
    assert adds == g + te + rest;
    if exists k :: 0 <= k < |adds| && IsTextEnter(adds[k]) {
      var k :| 0 <= k < |adds| && IsTextEnter(adds[k]);
      MediaAddedPlain(events, md, x);
      assert MediaAdded(events, md, x, false) == g + rest;
    }
    if HasText(events, md) && x == TextEnterIndex(events, md) {
      assert IsTextEnter(adds[|g|]);
    }
  }

  lemma TextExitPlacement(events: seq<Linked>, md: Media, x: nat)
    requires MediaFits(events, md)
    ensures (exists k :: 0 <= k < |MediaAdded(events, md, x, true)| && IsTextExit(MediaAdded(events, md, x, true)[k]))
            <==> HasText(events, md) && x == md.end.0
  {
    var front := At(x, md.start.0, GroupEnters(events, md)) + TextEnter(events, md, x);
    var tx := TextExit(events, md, x);
    var tail := LabelExit(events, md, x) + GroupExit(events, md, x);
    var adds := MediaAdded(events, md, x, true);
    assert adds == front + (tx + tail);
    if exists k :: 0 <= k < |adds| && IsTextExit(adds[k]) {
      var k :| 0 <= k < |adds| && IsTextExit(adds[k]);
      assert adds[k] in front + (tx + tail);
      assert adds[k] in tx;
    }
    if HasText(events, md) && x == md.end.0 {
      assert IsTextExit(adds[|front|]);
    }
  }

  lemma TextEntersAreTextEnters(events: seq<Linked>, media: seq<Media>, x: nat)
    requires AllMediaFit(events, media)
    ensures forall k :: 0 <= k < |TextEnters(events, media, x)| ==> IsTextEnter(TextEnters(events, media, x)[k])
    decreases |media|
  {
    if |media| > 0 {
      AllMediaFitCons(events, media);
      TextEntersAreTextEnters(events, media[1..], x);
      var rest := TextEnters(events, media[1..], x);
      var one := TextEnter(events, media[0], x);
      assert TextEnters(events, media, x) == rest + one;
      forall k | 0 <= k < |rest + one| ensures IsTextEnter((rest + one)[k]) {
        if k >= |rest| {
          assert (rest + one)[k] == one[k - |rest|];
        }
      }
    }
  }

  /** Neither a label text enter nor data. */
  predicate Framing(adds: seq<Linked>) {
    forall k :: 0 <= k < |adds| ==> !IsTextEnter(adds[k]) && !IsData(adds[k])
  }

  lemma FramingConcat(a: seq<Linked>, b: seq<Linked>)
    requires Framing(a) && Framing(b)
    ensures Framing(a + b)
  {
    forall k | 0 <= k < |a + b| ensures !IsTextEnter((a + b)[k]) && !IsData((a + b)[k]) {
      if k >= |a| { assert (a + b)[k] == b[k - |a|]; }
    }
  }

  lemma MediaAddedPlain(events: seq<Linked>, md: Media, x: nat)
    requires MediaFits(events, md)
    ensures Framing(MediaAdded(events, md, x, false))
  {
    var g := At(x, md.start.0, GroupEnters(events, md));
    assert Framing(g);
    assert Framing(TextExit(events, md, x));
    assert Framing(LabelExit(events, md, x));
    assert Framing(GroupExit(events, md, x));
    assert g + [] == g;
    FramingConcat(g, TextExit(events, md, x));
    FramingConcat(g + TextExit(events, md, x), LabelExit(events, md, x));
    FramingConcat(g + TextExit(events, md, x) + LabelExit(events, md, x), GroupExit(events, md, x));
  }

  lemma MediaAddedAllPlain(events: seq<Linked>, media: seq<Media>, x: nat)
    requires AllMediaFit(events, media)
    ensures forall k :: 0 <= k < |MediaAddedAll(events, media, x, false)| ==>
              !IsTextEnter(MediaAddedAll(events, media, x, false)[k]) && !IsData(MediaAddedAll(events, media, x, false)[k])
    decreases |media|
  {
    if |media| > 0 {
      AllMediaFitCons(events, media);
      MediaAddedAllPlain(events, media[1..], x);
      var one := MediaAdded(events, media[0], x, false);
      var rest := MediaAddedAll(events, media[1..], x, false);
      assert MediaAddedAll(events, media, x, false) == one + rest;
      MediaAddedPlain(events, media[0], x);
      FramingConcat(one, rest);
    }
  }

  lemma {:induction false} LooseAddedIsData(events: seq<Linked>, left: seq<LabelStart>, x: nat)
    requires AllLooseFit(events, left)
    ensures forall k :: 0 <= k < |LooseAdded(events, left, x)| ==> IsData(LooseAdded(events, left, x)[k])
    decreases |left|
  {
    if |left| > 0 {
      AllLooseFitCons(events, left);
      LooseAddedIsData(events, left[1..], x);
      var one := At(x, left[0].start.0, DataSpan(events, left[0]));
      var rest := LooseAdded(events, left[1..], x);
      assert LooseAdded(events, left, x) == one + rest;
      forall k | 0 <= k < |one + rest| ensures IsData((one + rest)[k]) {
        if k >= |one| {
          assert (one + rest)[k] == rest[k - |one|];
        }
      }
    }
  }

  /** With the media recorded first, every index receives its label text
      enters, then the other media events, then the data of leftover label
      starts. */
  lemma MediaMapOrdersAdditions(tok: Tokenizer, x: nat)
    requires MediaMap(tok).Ok?
    ensures TextEntersFirst(EditMap.Pending(MediaMap(tok).value.edits, x).add)
    ensures DataLast(EditMap.Pending(MediaMap(tok).value.edits, x).add)
  {
    var left := tok.loose + tok.stack;
    var t := TextEnters(tok.events, tok.mediaList, x);
    var m := MediaAddedAll(tok.events, tok.mediaList, x, false);
    var l := LooseAdded(tok.events, left, x);
    var adds := EditMap.Pending(MediaMap(tok).value.edits, x).add;
    assert adds == t + m + l;
    TextEntersAreTextEnters(tok.events, tok.mediaList, x);
    MediaAddedAllPlain(tok.events, tok.mediaList, x);
    LooseAddedIsData(tok.events, left, x);
    OrderOfParts(t, m, l);
  }

  lemma OrderOfParts(t: seq<Linked>, m: seq<Linked>, l: seq<Linked>)
    requires forall k :: 0 <= k < |t| ==> IsTextEnter(t[k])
    requires forall k :: 0 <= k < |m| ==> !IsTextEnter(m[k]) && !IsData(m[k])
    requires forall k :: 0 <= k < |l| ==> IsData(l[k])
    ensures TextEntersFirst(t + m + l) && DataLast(t + m + l)
  {
    var adds := t + m + l;
    forall k | 0 <= k < |adds|
      ensures k < |t| ==> IsTextEnter(adds[k]) && !IsGroupEnter(adds[k])
      ensures |t| <= k ==> !IsTextEnter(adds[k])
      ensures k < |t| + |m| ==> !IsData(adds[k])
      ensures |t| + |m| <= k ==> IsData(adds[k])
    {
      if k < |t| {
        assert adds[k] == t[k];
      } else if k < |t| + |m| {
        assert adds[k] == m[k - |t|];
      } else {
        assert adds[k] == l[k - |t| - |m|];
      }
    }
  }

  // ---------------------------------------------------------------------
  // The recording order as written, on two inputs

  function P(i: nat): Point {
    Events.Point(1, i + 1, i, 0)
  }

  function Ev(eventType: EventType, tokenType: Token, i: nat): Linked {
    Plain(eventType, tokenType, P(i))
  }

  /** `![[a](b)](c)`, each resource shown as just its enter and exit: an
      image whose label starts with a link. */
  function ImageAroundLink(): Tokenizer {
    var events := [
      Ev(Enter, LabelImage, 0), Ev(Enter, Unlisted(0), 1), Ev(Exit, Unlisted(0), 2),
      Ev(Enter, LabelMarker, 3), Ev(Exit, LabelMarker, 4), Ev(Exit, LabelImage, 5),
      Ev(Enter, LabelLink, 6), Ev(Enter, LabelMarker, 7), Ev(Exit, LabelMarker, 8), Ev(Exit, LabelLink, 9),
      Ev(Enter, Data, 10), Ev(Exit, Data, 11),
      Ev(Enter, LabelEnd, 12), Ev(Enter, LabelMarker, 13), Ev(Exit, LabelMarker, 14), Ev(Exit, LabelEnd, 15),
      Ev(Enter, Resource, 16), Ev(Exit, Resource, 17),
      Ev(Enter, LabelEnd, 18), Ev(Enter, LabelMarker, 19), Ev(Exit, LabelMarker, 20), Ev(Exit, LabelEnd, 21),
      Ev(Enter, Resource, 22), Ev(Exit, Resource, 23)];
    Tokenizer(events, [], [], [Media((6, 9), (12, 17), "a"), Media((0, 5), (18, 23), "[a](b)")])
  }

  lemma ImageAroundLinkFits()
    ensures AllMediaFit(ImageAroundLink().events, ImageAroundLink().mediaList)
  {
    var tok := ImageAroundLink();
    assert MediaFits(tok.events, tok.mediaList[0]);
    assert MediaFits(tok.events, tok.mediaList[1]);
  }

  /** At index 6 the link adds its group enters, the image its text enter. */
  lemma ImageAroundLinkAt6(withText: bool)
    ensures AllMediaFit(ImageAroundLink().events, ImageAroundLink().mediaList)
    ensures MediaAdded(ImageAroundLink().events, ImageAroundLink().mediaList[0], 6, withText)
            == [Ev(Enter, Link, 6), Ev(Enter, Label, 6)]
    ensures MediaAdded(ImageAroundLink().events, ImageAroundLink().mediaList[1], 6, withText)
            == if withText then [Ev(Enter, LabelText, 6)] else []
    ensures TextEnter(ImageAroundLink().events, ImageAroundLink().mediaList[0], 6) == []
    ensures TextEnter(ImageAroundLink().events, ImageAroundLink().mediaList[1], 6) == [Ev(Enter, LabelText, 6)]
  {
    ImageAroundLinkFits();
    var tok := ImageAroundLink();
    assert tok.events[0] == Ev(Enter, LabelImage, 0);
    assert tok.events[6] == Ev(Enter, LabelLink, 6);
    assert TextEnterIndex(tok.events, tok.mediaList[0]) == 10;
    assert TextEnterIndex(tok.events, tok.mediaList[1]) == 6;
  }

  lemma TwoMedia(events: seq<Linked>, media: seq<Media>, x: nat, withText: bool)
    requires |media| == 2 && AllMediaFit(events, media)
    ensures MediaAddedAll(events, media, x, withText)
            == MediaAdded(events, media[0], x, withText) + MediaAdded(events, media[1], x, withText)
    ensures TextEnters(events, media, x) == TextEnter(events, media[1], x) + TextEnter(events, media[0], x)
  {
    AllMediaFitCons(events, media);
    AllMediaFitCons(events, media[1..]);
    assert media[1..][0] == media[1] && media[1..][1..] == [];
    var b := MediaAdded(events, media[1], x, withText);
    assert MediaAddedAll(events, media[1..], x, withText) == b + [] == b;
    var t := TextEnter(events, media[1], x);
    assert TextEnters(events, media[1..], x) == [] + t == t;
  }

  lemma ImageAroundLinkAdds(tok: Tokenizer, withText: bool)
    requires tok == ImageAroundLink()
    ensures AllMediaFit(tok.events, tok.mediaList)
    ensures AllLooseFit(tok.events, tok.loose + tok.stack)
    ensures LooseAdded(tok.events, tok.loose + tok.stack, 6) == []
    ensures MediaAddedAll(tok.events, tok.mediaList, 6, withText)
            == [Ev(Enter, Link, 6), Ev(Enter, Label, 6)] + (if withText then [Ev(Enter, LabelText, 6)] else [])
    ensures TextEnters(tok.events, tok.mediaList, 6) == [Ev(Enter, LabelText, 6)]
  {
    ImageAroundLinkAt6(withText);
    TwoMedia(tok.events, tok.mediaList, 6, withText);
    assert tok.loose + tok.stack == [];
  }

  /** Recorded as written, the link opens before the image's label text at
      index 6, and at the image's label end, index 18, the link closes
      before the image's label text does: the two spans cross. */
  lemma AsWrittenOpensLinkBeforeText(tok: Tokenizer)
    requires tok == ImageAroundLink()
    ensures MediaMapAsWritten(tok).Ok?
    ensures EditMap.Pending(MediaMapAsWritten(tok).value.edits, 6).add
            == [Ev(Enter, Link, 6), Ev(Enter, Label, 6), Ev(Enter, LabelText, 6)]
    ensures !TextEntersFirst(EditMap.Pending(MediaMapAsWritten(tok).value.edits, 6).add)
    ensures EditMap.Pending(MediaMapAsWritten(tok).value.edits, 18).add
            == [Ev(Exit, Link, 17), Ev(Exit, LabelText, 18)]
  {
    AsWrittenAt6(tok);
    LinkBeforeText(EditMap.Pending(MediaMapAsWritten(tok).value.edits, 6).add);
    AsWrittenAt18(tok);
  }

  /** At index 18 the link adds its group exit, the image its text exit. */
  lemma ImageAroundLinkAt18()
    ensures AllMediaFit(ImageAroundLink().events, ImageAroundLink().mediaList)
    ensures MediaAdded(ImageAroundLink().events, ImageAroundLink().mediaList[0], 18, true) == [Ev(Exit, Link, 17)]
    ensures MediaAdded(ImageAroundLink().events, ImageAroundLink().mediaList[1], 18, true) == [Ev(Exit, LabelText, 18)]
  {
    ImageAroundLinkFits();
    var tok := ImageAroundLink();
    assert tok.events[0] == Ev(Enter, LabelImage, 0);
    assert tok.events[6] == Ev(Enter, LabelLink, 6);
    assert TextEnterIndex(tok.events, tok.mediaList[0]) == 10;
    assert TextEnterIndex(tok.events, tok.mediaList[1]) == 6;
  }

  lemma AsWrittenAt18(tok: Tokenizer)
    requires tok == ImageAroundLink()
    ensures MediaMapAsWritten(tok).Ok?
    ensures EditMap.Pending(MediaMapAsWritten(tok).value.edits, 18).add
            == [Ev(Exit, Link, 17), Ev(Exit, LabelText, 18)]
  {
    ImageAroundLinkAt18();
    ImageAroundLinkFits();
    TwoMedia(tok.events, tok.mediaList, 18, true);
    assert tok.loose + tok.stack == [];
    assert [] + ([Ev(Exit, Link, 17)] + [Ev(Exit, LabelText, 18)]) == [Ev(Exit, Link, 17), Ev(Exit, LabelText, 18)];
  }

  lemma AsWrittenAt6(tok: Tokenizer)
    requires tok == ImageAroundLink()
    ensures MediaMapAsWritten(tok).Ok?
    ensures EditMap.Pending(MediaMapAsWritten(tok).value.edits, 6).add
            == [Ev(Enter, Link, 6), Ev(Enter, Label, 6), Ev(Enter, LabelText, 6)]
  {
    ImageAroundLinkAdds(tok, true);
    assert [] + ([Ev(Enter, Link, 6), Ev(Enter, Label, 6)] + [Ev(Enter, LabelText, 6)])
           == [Ev(Enter, Link, 6), Ev(Enter, Label, 6), Ev(Enter, LabelText, 6)];
  }

  lemma LinkBeforeText(adds: seq<Linked>)
    requires adds == [Ev(Enter, Link, 6), Ev(Enter, Label, 6), Ev(Enter, LabelText, 6)]
    ensures !TextEntersFirst(adds)
  {
    assert IsGroupEnter(adds[0]) && IsTextEnter(adds[2]);
  }

  /** `[a](b)[c`, the resource shown as just its enter and exit: a link
      followed by a label start that never closes. */
  function LinkThenBracket(): Tokenizer {
    var events := [
      Ev(Enter, LabelLink, 0), Ev(Enter, LabelMarker, 1), Ev(Exit, LabelMarker, 2), Ev(Exit, LabelLink, 3),
      Ev(Enter, Data, 4), Ev(Exit, Data, 5),
      Ev(Enter, LabelEnd, 6), Ev(Enter, LabelMarker, 7), Ev(Exit, LabelMarker, 8), Ev(Exit, LabelEnd, 9),
      Ev(Enter, Resource, 10), Ev(Exit, Resource, 11),
      Ev(Enter, LabelLink, 12), Ev(Enter, LabelMarker, 13), Ev(Exit, LabelMarker, 14), Ev(Exit, LabelLink, 15),
      Ev(Enter, Data, 16), Ev(Exit, Data, 17)];
    Tokenizer(events, [LabelStart((12, 15), false, false)], [], [Media((0, 3), (6, 11), "a")])
  }

  lemma LinkThenBracketFits()
    ensures AllMediaFit(LinkThenBracket().events, LinkThenBracket().mediaList)
    ensures AllLooseFit(LinkThenBracket().events, LinkThenBracket().loose + LinkThenBracket().stack)
  {
    var tok := LinkThenBracket();
    assert MediaFits(tok.events, tok.mediaList[0]);
    assert LooseFits(tok.events, tok.stack[0]);
  }

  /** At index 12 the link adds its group exit, the bracket its data. */
  lemma LinkThenBracketAdds(tok: Tokenizer, withText: bool)
    requires tok == LinkThenBracket()
    ensures AllMediaFit(tok.events, tok.mediaList)
    ensures AllLooseFit(tok.events, tok.loose + tok.stack)
    ensures MediaAddedAll(tok.events, tok.mediaList, 12, withText) == [Ev(Exit, Link, 11)]
    ensures TextEnters(tok.events, tok.mediaList, 12) == []
    ensures LooseAdded(tok.events, tok.loose + tok.stack, 12) == [Ev(Enter, Data, 12), Ev(Exit, Data, 15)]
  {
    LinkThenBracketFits();
    var md := tok.mediaList[0];
    assert tok.events[0] == Ev(Enter, LabelLink, 0);
    assert TextEnterIndex(tok.events, md) == 4;
    assert MediaAdded(tok.events, md, 12, withText) == [Ev(Exit, Link, 11)];
    AllMediaFitCons(tok.events, tok.mediaList);
    assert tok.mediaList[1..] == [];
    var left := tok.loose + tok.stack;
    AllLooseFitCons(tok.events, left);
    assert left[1..] == [];
  }

  /** Recorded as written, the `[` at index 12 turns into data before the
      link closes there, so the link swallows it. */
  lemma AsWrittenPutsDataInsideLink(tok: Tokenizer)
    requires tok == LinkThenBracket()
    ensures MediaMapAsWritten(tok).Ok?
    ensures EditMap.Pending(MediaMapAsWritten(tok).value.edits, 12).add
            == [Ev(Enter, Data, 12), Ev(Exit, Data, 15), Ev(Exit, Link, 11)]
    ensures !DataLast(EditMap.Pending(MediaMapAsWritten(tok).value.edits, 12).add)
  {
    AsWrittenAt12(tok);
    DataBeforeLinkExit(EditMap.Pending(MediaMapAsWritten(tok).value.edits, 12).add);
  }

  lemma AsWrittenAt12(tok: Tokenizer)
    requires tok == LinkThenBracket()
    ensures MediaMapAsWritten(tok).Ok?
    ensures EditMap.Pending(MediaMapAsWritten(tok).value.edits, 12).add
            == [Ev(Enter, Data, 12), Ev(Exit, Data, 15), Ev(Exit, Link, 11)]
  {
    LinkThenBracketAdds(tok, true);
    assert [Ev(Enter, Data, 12), Ev(Exit, Data, 15)] + [Ev(Exit, Link, 11)]
           == [Ev(Enter, Data, 12), Ev(Exit, Data, 15), Ev(Exit, Link, 11)];
  }

  lemma DataBeforeLinkExit(adds: seq<Linked>)
    requires adds == [Ev(Enter, Data, 12), Ev(Exit, Data, 15), Ev(Exit, Link, 11)]
    ensures !DataLast(adds)
  {
    assert IsData(adds[0]) && !IsData(adds[2]);
  }

  /** Recorded with text enters first and leftover data last: at index 6
      the image's text enter comes before the link's enters, and at index 12
      the `[` data comes after the link's exit. */
  lemma CorrectedOrderOnBothInputs(one: Tokenizer, two: Tokenizer)
    requires one == ImageAroundLink() && two == LinkThenBracket()
    ensures MediaMap(one).Ok?
    ensures EditMap.Pending(MediaMap(one).value.edits, 6).add
            == [Ev(Enter, LabelText, 6), Ev(Enter, Link, 6), Ev(Enter, Label, 6)]
    ensures MediaMap(two).Ok?
    ensures EditMap.Pending(MediaMap(two).value.edits, 12).add
            == [Ev(Exit, Link, 11), Ev(Enter, Data, 12), Ev(Exit, Data, 15)]
  {
    CorrectedAt6(one);
    CorrectedAt12(two);
  }

  lemma CorrectedAt6(tok: Tokenizer)
    requires tok == ImageAroundLink()
    ensures MediaMap(tok).Ok?
    ensures EditMap.Pending(MediaMap(tok).value.edits, 6).add
            == [Ev(Enter, LabelText, 6), Ev(Enter, Link, 6), Ev(Enter, Label, 6)]
  {
    ImageAroundLinkAdds(tok, false);
    assert [Ev(Enter, LabelText, 6)] + ([Ev(Enter, Link, 6), Ev(Enter, Label, 6)] + []) + []
           == [Ev(Enter, LabelText, 6), Ev(Enter, Link, 6), Ev(Enter, Label, 6)];
  }

  lemma CorrectedAt12(tok: Tokenizer)
    requires tok == LinkThenBracket()
    ensures MediaMap(tok).Ok?
    ensures EditMap.Pending(MediaMap(tok).value.edits, 12).add
            == [Ev(Exit, Link, 11), Ev(Enter, Data, 12), Ev(Exit, Data, 15)]
  {
    LinkThenBracketAdds(tok, false);
    assert [] + [Ev(Exit, Link, 11)] + [Ev(Enter, Data, 12), Ev(Exit, Data, 15)]
           == [Ev(Exit, Link, 11), Ev(Enter, Data, 12), Ev(Exit, Data, 15)];
  }
}
