/**
 What a stream and a buffered reply deliver of the text a model writes in its steps.

 A stream is a sequence of parts. The filters are loops over it; each is proved to compute a
 fold, and the text the fold lets through is compared with the buffered reply.
 */
module IntermediateText {
  import opened Options

  datatype Part =
    | StartStep
    | TextStart(id: string)
    | TextDelta(id: string, text: string)
    | TextEnd(id: string)
    | ToolInputStart(id: string)
    | ToolCall(id: string)
    | FinishStep
    | Finish
    | Other(kind: string)

  datatype Policy = Discard | Progress | Reply

  const STEP_SEPARATOR := "\n\n"

  predicate IsText(p: Part) { p.TextStart? || p.TextDelta? || p.TextEnd? }

  predicate IsTool(p: Part) { p.ToolInputStart? || p.ToolCall? }

  // ---------------------------------------------------------------- texts

  function Concat(texts: seq<string>): string {
    if texts == [] then "" else texts[0] + Concat(texts[1..])
  }

  /** The non-empty text deltas of a stream, in order. */
  function DeltasOf(parts: seq<Part>): seq<string> {
    if parts == [] then []
    else
      var before, last := DeltasOf(parts[..|parts| - 1]), parts[|parts| - 1];
      if last.TextDelta? && last.text != "" then before + [last.text] else before
  }

  function TextOf(parts: seq<Part>): string {
    Concat(DeltasOf(parts))
  }

  method TextDeltas(source: seq<Part>) returns (texts: seq<string>)
    ensures texts == DeltasOf(source)
  {
    texts := [];
    for i := 0 to |source|
      invariant texts == DeltasOf(source[..i])
    {
      assert source[..i + 1][..|source[..i + 1]| - 1] == source[..i];
      var part := source[i];
      if part.TextDelta? && part.text != "" {
        texts := texts + [part.text];
      }
    }
    assert source[..|source|] == source;
  }

  function NonEmpty(texts: seq<string>): seq<string> {
    if texts == [] then []
    else (if texts[0] != "" then [texts[0]] else []) + NonEmpty(texts[1..])
  }

  function Join(texts: seq<string>): string {
    if texts == [] then "" else if |texts| == 1 then texts[0] else texts[0] + STEP_SEPARATOR + Join(texts[1..])
  }

  function JoinStepTexts(texts: seq<string>): string {
    Join(NonEmpty(texts))
  }

  /** The buffered reply: the last step's text, or under `reply` every step's. */
  function ReplyTextFor(policy: Option<Policy>, texts: seq<string>): string
    requires texts != []
  {
    if policy == Some(Reply) then JoinStepTexts(texts) else texts[|texts| - 1]
  }

  lemma {:induction false} Assoc(a: string, b: string, c: string)
    ensures a + (b + c) == a + b + c
  {
  }

  lemma {:induction false} ConcatAppend(a: seq<string>, b: seq<string>)
    ensures Concat(a + b) == Concat(a) + Concat(b)
  {
    if a == [] {
      assert a + b == b;
    } else {
      ConcatAppend(a[1..], b);
      assert (a + b)[1..] == a[1..] + b;
      Assoc(a[0], Concat(a[1..]), Concat(b));
    }
  }

  lemma {:induction false} DeltasAppend(a: seq<Part>, b: seq<Part>)
    ensures DeltasOf(a + b) == DeltasOf(a) + DeltasOf(b)
  {
    if b == [] {
      assert a + b == a;
    } else {
      DeltasAppend(a, b[..|b| - 1]);
      assert (a + b)[..|a + b| - 1] == a + b[..|b| - 1];
    }
  }

  lemma {:induction false} TextAppend(a: seq<Part>, b: seq<Part>)
    ensures TextOf(a + b) == TextOf(a) + TextOf(b)
  {
    DeltasAppend(a, b);
    ConcatAppend(DeltasOf(a), DeltasOf(b));
  }

  lemma {:induction false} TextOfNone()
    ensures TextOf([]) == ""
  {
  }

  lemma {:induction false} TextOfOne(p: Part)
    ensures TextOf([p]) == if p.TextDelta? then p.text else ""
  {
    var one := [p];
    assert one[..|one| - 1] == [];
    assert DeltasOf(one) == if p.TextDelta? && p.text != "" then [p.text] else [];
    if p.TextDelta? && p.text != "" {
      var texts := [p.text];
      assert texts[1..] == [];
      assert Concat(texts) == p.text;
    }
  }

  // ---------------------------------------------------------------- discard

  /** `held`: text of the open step; `kept`: text of the last closed step, if that step called a tool. */
  datatype Discarding = Discarding(held: seq<Part>, toolStep: bool, kept: seq<Part>, out: seq<Part>)

  function DiscardPart(s: Discarding, p: Part): Discarding {
    if p.StartStep? then Discarding([], false, [], s.out + [p])
    else if IsText(p) then s.(held := s.held + [p])
    else if IsTool(p) then s.(toolStep := true, out := s.out + [p])
    else if p.FinishStep? then
      s.(held := [],
         kept := if s.toolStep then s.held else s.kept,
         out := (if s.toolStep then s.out else s.out + s.held) + [p])
    else if p.Finish? then s.(kept := [], out := s.out + s.kept + [p])
    else s.(out := s.out + [p])
  }

  function DiscardFrom(s: Discarding, parts: seq<Part>): Discarding {
    if parts == [] then s else DiscardPart(DiscardFrom(s, parts[..|parts| - 1]), parts[|parts| - 1])
  }

  const DISCARD_START := Discarding([], false, [], [])

  function Discarded(parts: seq<Part>): seq<Part> {
    var s := DiscardFrom(DISCARD_START, parts);
    s.out + s.kept + s.held
  }

  method DiscardToolStepText(source: seq<Part>) returns (out: seq<Part>)
    ensures out == Discarded(source)
  {
    out := [];
    var held, toolStep, toolStepText := [], false, [];
    for i := 0 to |source|
      invariant Discarding(held, toolStep, toolStepText, out) == DiscardFrom(DISCARD_START, source[..i])
    {
      assert source[..i + 1][..|source[..i + 1]| - 1] == source[..i];
      var part := source[i];
      if part.StartStep? {
        held, toolStep, toolStepText := [], false, [];
        out := out + [part];
      } else if IsText(part) {
        held := held + [part];
      } else if IsTool(part) {
        toolStep := true;
        out := out + [part];
      } else if part.FinishStep? {
        if toolStep {
          toolStepText := held;
          out := out + [part];
        } else {
          out := out + held + [part];
        }
        held := [];
      } else if part.Finish? {
        out := out + toolStepText + [part];
        toolStepText := [];
      } else {
        out := out + [part];
      }
    }
    assert source[..|source|] == source;
    out := out + toolStepText + held;
  }

  function NonText(parts: seq<Part>): seq<Part> {
    if parts == [] then []
    else
      var before, last := NonText(parts[..|parts| - 1]), parts[|parts| - 1];
      if last.TextStart? || last.TextDelta? || last.TextEnd? then before else before + [last]
  }

  function TextParts(parts: seq<Part>): seq<Part> {
    if parts == [] then []
    else
      var before, last := TextParts(parts[..|parts| - 1]), parts[|parts| - 1];
      if last.TextStart? || last.TextDelta? || last.TextEnd? then before + [last] else before
  }

  /** `a` is obtained from `b` by dropping elements. */
  predicate Subsequence(a: seq<Part>, b: seq<Part>) {
    a == [] || (b != [] && (Subsequence(a, b[..|b| - 1])
                            || (a[|a| - 1] == b[|b| - 1] && Subsequence(a[..|a| - 1], b[..|b| - 1]))))
  }

  lemma {:induction false} NonTextAppend(a: seq<Part>, b: seq<Part>)
    ensures NonText(a + b) == NonText(a) + NonText(b)
    ensures TextParts(a + b) == TextParts(a) + TextParts(b)
  {
    if b == [] {
      assert a + b == a;
    } else {
      NonTextAppend(a, b[..|b| - 1]);
      assert (a + b)[..|a + b| - 1] == a + b[..|b| - 1];
    }
  }

  lemma {:induction false} PartsPush(parts: seq<Part>, p: Part)
    ensures NonText(parts + [p]) == if IsText(p) then NonText(parts) else NonText(parts) + [p]
    ensures TextParts(parts + [p]) == if IsText(p) then TextParts(parts) + [p] else TextParts(parts)
  {
    assert (parts + [p])[..|parts + [p]| - 1] == parts;
  }

  predicate AllText(parts: seq<Part>) { forall i :: 0 <= i < |parts| ==> IsText(parts[i]) }

  lemma {:induction false} AllTextParts(parts: seq<Part>)
    requires AllText(parts)
    ensures NonText(parts) == [] && TextParts(parts) == parts
  {
    if parts != [] {
      AllTextParts(parts[..|parts| - 1]);
    }
  }

  lemma {:induction false} SubsequenceGrows(a: seq<Part>, b: seq<Part>, p: Part)
    requires Subsequence(a, b)
    ensures Subsequence(a, b + [p])
  {
    assert (b + [p])[..|b + [p]| - 1] == b;
  }

  lemma {:induction false} SubsequencePush(a: seq<Part>, b: seq<Part>, p: Part)
    requires Subsequence(a, b)
    ensures Subsequence(a + [p], b + [p])
  {
    assert (b + [p])[..|b + [p]| - 1] == b;
    assert (a + [p])[..|a + [p]| - 1] == a;
  }

  lemma {:induction false} SubsequenceDrops(a: seq<Part>, b: seq<Part>, c: seq<Part>)
    requires Subsequence(a + c, b)
    ensures Subsequence(a, b)
  {
    if c == [] {
      assert a + c == a;
    } else {
      var ac := a + c;
      assert ac[..|ac| - 1] == a + c[..|c| - 1];
      DropLast(ac, b);
      SubsequenceDrops(a, b, c[..|c| - 1]);
    }
  }

  lemma {:induction false} DropLast(a: seq<Part>, b: seq<Part>)
    requires a != [] && Subsequence(a, b)
    ensures Subsequence(a[..|a| - 1], b)
  {
    var front := b[..|b| - 1];
    if Subsequence(a, front) {
      DropLast(a, front);
      SubsequenceGrows(a[..|a| - 1], front, b[|b| - 1]);
    } else {
      SubsequenceGrows(a[..|a| - 1], front, b[|b| - 1]);
    }
    assert front + [b[|b| - 1]] == b;
  }

  /** What is already out has all the non-text parts, and with what is held back a subsequence of the texts. */
  ghost predicate Keeps(s: Discarding, others: seq<Part>, texts: seq<Part>) {
    && AllText(s.held) && AllText(s.kept)
    && (!s.toolStep ==> s.kept == [])
    && NonText(s.out) == others
    && Subsequence(TextParts(s.out) + s.kept + s.held, texts)
  }

  lemma {:induction false} NonTextOne(p: Part)
    ensures NonText([p]) == (if IsText(p) then [] else [p]) && TextParts([p]) == (if IsText(p) then [p] else [])
  {
    assert [p][..0] == [];
  }

  /** Emitting held text and then a part that is not text. */
  lemma {:induction false} Emit(out: seq<Part>, texts: seq<Part>, p: Part)
    requires AllText(texts) && !IsText(p)
    ensures NonText(out + texts + [p]) == NonText(out) + [p]
    ensures TextParts(out + texts + [p]) == TextParts(out) + texts
  {
    NonTextAppend(out + texts, [p]);
    NonTextAppend(out, texts);
    AllTextParts(texts);
    NonTextOne(p);
    assert NonText(out) + [] == NonText(out);
    assert TextParts(out) + texts + [] == TextParts(out) + texts;
  }

  lemma {:induction false} KeepsText(s: Discarding, others: seq<Part>, texts: seq<Part>, p: Part)
    requires Keeps(s, others, texts) && IsText(p)
    ensures Keeps(DiscardPart(s, p), others, texts + [p])
  {
    hide Subsequence, TextParts, NonText;
    var all := TextParts(s.out) + s.kept + s.held;
    SubsequencePush(all, texts, p);
    assert TextParts(s.out) + s.kept + (s.held + [p]) == all + [p];
  }

  lemma {:induction false} KeepsStartStep(s: Discarding, others: seq<Part>, texts: seq<Part>, p: Part)
    requires Keeps(s, others, texts) && p.StartStep?
    ensures Keeps(DiscardPart(s, p), others + [p], texts)
  {
    hide Subsequence, TextParts, NonText;
    var emitted, s' := TextParts(s.out), DiscardPart(s, p);
    SubsequenceDrops(emitted + s.kept, texts, s.held);
    SubsequenceDrops(emitted, texts, s.kept);
    Emit(s.out, [], p);
    assert s.out + [] + [p] == s'.out;
    assert TextParts(s'.out) + s'.kept + s'.held == emitted;
  }

  lemma {:induction false} KeepsFinishToolStep(s: Discarding, others: seq<Part>, texts: seq<Part>, p: Part)
    requires Keeps(s, others, texts) && p.FinishStep? && s.toolStep
    ensures Keeps(DiscardPart(s, p), others + [p], texts)
  {
    hide Subsequence, TextParts, NonText;
    var emitted := TextParts(s.out);
    DropMiddle(emitted, s.kept, s.held, texts);
    Emit(s.out, [], p);
    assert s.out + [] + [p] == s.out + [p];
    assert emitted + [] + s.held + [] == emitted + s.held;
  }

  lemma {:induction false} KeepsFinishStep(s: Discarding, others: seq<Part>, texts: seq<Part>, p: Part)
    requires Keeps(s, others, texts) && p.FinishStep? && !s.toolStep
    ensures Keeps(DiscardPart(s, p), others + [p], texts)
  {
    hide Subsequence, TextParts, NonText;
    var emitted := TextParts(s.out);
    Emit(s.out, s.held, p);
    assert emitted + s.held + [] + [] == emitted + [] + s.held;
  }

  lemma {:induction false} KeepsFinish(s: Discarding, others: seq<Part>, texts: seq<Part>, p: Part)
    requires Keeps(s, others, texts) && p.Finish?
    ensures Keeps(DiscardPart(s, p), others + [p], texts)
  {
    hide Subsequence, TextParts, NonText;
    var emitted := TextParts(s.out);
    Emit(s.out, s.kept, p);
    assert emitted + s.kept + [] + s.held == emitted + s.kept + s.held;
  }

  lemma {:induction false} KeepsOther(s: Discarding, others: seq<Part>, texts: seq<Part>, p: Part)
    requires Keeps(s, others, texts) && (IsTool(p) || p.Other?)
    ensures Keeps(DiscardPart(s, p), others + [p], texts)
  {
    hide Subsequence, TextParts, NonText;
    Emit(s.out, [], p);
    assert s.out + [] + [p] == s.out + [p];
    assert TextParts(s.out) + [] == TextParts(s.out);
  }

  lemma {:induction false} DiscardKeeps(parts: seq<Part>)
    ensures Keeps(DiscardFrom(DISCARD_START, parts), NonText(parts), TextParts(parts))
  {
    if parts != [] {
      var front, p := parts[..|parts| - 1], parts[|parts| - 1];
      DiscardKeeps(front);
      var s := DiscardFrom(DISCARD_START, front);
      assert TextParts(front) + [] == TextParts(front) && NonText(front) + [] == NonText(front);
      match p
      case StartStep => KeepsStartStep(s, NonText(front), TextParts(front), p);
      case FinishStep =>
        if s.toolStep {
          KeepsFinishToolStep(s, NonText(front), TextParts(front), p);
        } else {
          KeepsFinishStep(s, NonText(front), TextParts(front), p);
        }
      case Finish => KeepsFinish(s, NonText(front), TextParts(front), p);
      case TextStart(_) => KeepsText(s, NonText(front), TextParts(front), p);
      case TextDelta(_, _) => KeepsText(s, NonText(front), TextParts(front), p);
      case TextEnd(_) => KeepsText(s, NonText(front), TextParts(front), p);
      case _ => KeepsOther(s, NonText(front), TextParts(front), p);
    }
  }

  lemma {:induction false} DropMiddle(a: seq<Part>, mid: seq<Part>, c: seq<Part>, b: seq<Part>)
    requires Subsequence(a + mid + c, b)
    ensures Subsequence(a + c, b)
    decreases |c|, |b|
  {
    if c == [] {
      assert a + mid + c == a + mid && a + c == a;
      SubsequenceDrops(a, b, mid);
    } else {
      var whole := a + mid + c;
      var front := b[..|b| - 1];
      assert front + [b[|b| - 1]] == b;
      if Subsequence(whole, front) {
        DropMiddle(a, mid, c, front);
        SubsequenceGrows(a + c, front, b[|b| - 1]);
      } else {
        var c' := c[..|c| - 1];
        assert whole[..|whole| - 1] == a + mid + c';
        DropMiddle(a, mid, c', front);
        SubsequencePush(a + c', front, b[|b| - 1]);
        assert a + c' + [c[|c| - 1]] == a + c;
      }
    }
  }

  /** On any stream: what is not text passes unchanged and in order, and no text is invented or reordered. */
  lemma {:induction false} DiscardOnAnyStream(parts: seq<Part>)
    ensures NonText(Discarded(parts)) == NonText(parts)
    ensures Subsequence(TextParts(Discarded(parts)), TextParts(parts))
  {
    DiscardKeeps(parts);
    var s := DiscardFrom(DISCARD_START, parts);
    AllTextParts(s.held);
    AllTextParts(s.kept);
    NonTextAppend(s.out, s.kept);
    NonTextAppend(s.out + s.kept, s.held);
  }

  // ---------------------------------------------------------------- a turn as a stream of steps

  /** What a model does inside one step: text, tool calls, anything but step and turn boundaries. */
  predicate IsBody(parts: seq<Part>) {
    forall i :: 0 <= i < |parts| ==> !parts[i].StartStep? && !parts[i].FinishStep? && !parts[i].Finish?
  }

  predicate IsTurn(steps: seq<seq<Part>>) {
    forall i :: 0 <= i < |steps| ==> IsBody(steps[i])
  }

  predicate HasTool(parts: seq<Part>) {
    exists i :: 0 <= i < |parts| && (parts[i].ToolInputStart? || parts[i].ToolCall?)
  }

  function StepParts(body: seq<Part>): seq<Part> {
    [StartStep] + body + [FinishStep]
  }

  function StreamOf(steps: seq<seq<Part>>): seq<Part> {
    if steps == [] then [] else StreamOf(steps[..|steps| - 1]) + StepParts(steps[|steps| - 1])
  }

  /** How a turn's stream ends: with its finish part, cut between two steps, or cut inside its last step. */
  datatype Ending = Finished | CutAfterStep | CutInStep

  function TurnStream(steps: seq<seq<Part>>, ending: Ending): seq<Part>
    requires steps != []
  {
    match ending
    case Finished => StreamOf(steps) + [Finish]
    case CutAfterStep => StreamOf(steps)
    case CutInStep => StreamOf(steps[..|steps| - 1]) + ([StartStep] + steps[|steps| - 1])
  }

  function TextsOf(steps: seq<seq<Part>>): (texts: seq<string>)
    ensures |texts| == |steps|
  {
    seq(|steps|, i requires 0 <= i < |steps| => TextOf(steps[i]))
  }

  /** The texts of the steps that called no tool, run together. */
  function PlainText(steps: seq<seq<Part>>): string {
    if steps == [] then ""
    else PlainText(steps[..|steps| - 1]) + if HasTool(steps[|steps| - 1]) then "" else TextOf(steps[|steps| - 1])
  }

  lemma {:induction false} DiscardSplit(s: Discarding, a: seq<Part>, b: seq<Part>)
    ensures DiscardFrom(s, a + b) == DiscardFrom(DiscardFrom(s, a), b)
  {
    if b == [] {
      assert a + b == a;
    } else {
      DiscardSplit(s, a, b[..|b| - 1]);
      assert (a + b)[..|a + b| - 1] == a + b[..|b| - 1];
    }
  }

  lemma {:induction false} DiscardOne(s: Discarding, p: Part)
    ensures DiscardFrom(s, [p]) == DiscardPart(s, p)
  {
    assert [p][..0] == [];
  }

  lemma {:induction false} TextPush(parts: seq<Part>, p: Part)
    ensures TextOf(parts + [p]) == TextOf(parts) + if p.TextDelta? then p.text else ""
  {
    hide TextOf;
    TextAppend(parts, [p]);
    TextOfOne(p);
  }

  lemma {:induction false} HasToolPush(parts: seq<Part>, p: Part)
    ensures HasTool(parts + [p]) <==> HasTool(parts) || IsTool(p)
  {
    var all := parts + [p];
    assert all[|parts|] == p && forall i :: 0 <= i < |parts| ==> all[i] == parts[i];
  }

  lemma {:induction false} DiscardBody(s: Discarding, body: seq<Part>)
    requires IsBody(body)
    ensures DiscardFrom(s, body)
         == Discarding(s.held + TextParts(body), s.toolStep || HasTool(body), s.kept, s.out + NonText(body))
  {
    if body == [] {
      assert s.held + [] == s.held && s.out + [] == s.out;
    } else {
      var front, p := body[..|body| - 1], body[|body| - 1];
      DiscardBody(s, front);
      HasToolPush(front, p);
      assert front + [p] == body;
      assert s.held + TextParts(front) + [p] == s.held + (TextParts(front) + [p]);
      assert s.out + NonText(front) + [p] == s.out + (NonText(front) + [p]);
      assert s.held + TextParts(front) == s.held + (TextParts(front) + []);
      assert s.out + NonText(front) == s.out + (NonText(front) + []);
    }
  }

  /** What a step lets through as it runs: its other parts at once, its text at its end unless it called a tool. */
  function StepOut(body: seq<Part>): seq<Part> {
    [StartStep] + NonText(body) + (if HasTool(body) then [] else TextParts(body)) + [FinishStep]
  }

  function StepsOut(steps: seq<seq<Part>>): seq<Part> {
    if steps == [] then [] else StepsOut(steps[..|steps| - 1]) + StepOut(steps[|steps| - 1])
  }

  /** The text a closed step withheld. */
  function Withheld(body: seq<Part>): seq<Part> {
    if HasTool(body) then TextParts(body) else []
  }

  /** What `discard` lets through of a turn; the last step's withheld text comes before the finish part, or at the end. */
  function TurnOut(steps: seq<seq<Part>>, ending: Ending): seq<Part>
    requires steps != []
  {
    var front, last := steps[..|steps| - 1], steps[|steps| - 1];
    match ending
    case Finished => StepsOut(steps) + Withheld(last) + [Finish]
    case CutAfterStep => StepsOut(steps) + Withheld(last)
    case CutInStep => StepsOut(front) + [StartStep] + NonText(last) + TextParts(last)
  }

  lemma {:induction false} DiscardOpen(s: Discarding, body: seq<Part>)
    requires IsBody(body)
    ensures DiscardFrom(s, [StartStep] + body)
         == Discarding(TextParts(body), HasTool(body), [], s.out + [StartStep] + NonText(body))
  {
    DiscardSplit(s, [StartStep], body);
    DiscardOne(s, StartStep);
    DiscardBody(DiscardPart(s, StartStep), body);
    assert [] + TextParts(body) == TextParts(body);
  }

  lemma {:induction false} DiscardStep(s: Discarding, body: seq<Part>)
    requires IsBody(body)
    ensures DiscardFrom(s, StepParts(body)) == Discarding([], HasTool(body), Withheld(body), s.out + StepOut(body))
  {
    DiscardSplit(s, [StartStep] + body, [FinishStep]);
    DiscardOpen(s, body);
    DiscardOne(DiscardFrom(s, [StartStep] + body), FinishStep);
    var text := if HasTool(body) then [] else TextParts(body);
    hide TextParts, NonText, HasTool;
    assert s.out + [StartStep] + NonText(body) + text + [FinishStep] == s.out + ([StartStep] + NonText(body) + text + [FinishStep]);
  }

  lemma {:induction false} DiscardSteps(steps: seq<seq<Part>>)
    requires IsTurn(steps)
    ensures var s := DiscardFrom(DISCARD_START, StreamOf(steps));
            && s.held == [] && s.out == StepsOut(steps)
            && s.kept == if steps == [] then [] else Withheld(steps[|steps| - 1])
  {
    if steps != [] {
      var front := steps[..|steps| - 1];
      DiscardSplit(DISCARD_START, StreamOf(front), StepParts(steps[|steps| - 1]));
      DiscardSteps(front);
      DiscardStep(DiscardFrom(DISCARD_START, StreamOf(front)), steps[|steps| - 1]);
    }
  }

  lemma {:induction false} DiscardClosed(steps: seq<seq<Part>>)
    requires IsTurn(steps) && steps != []
    ensures Discarded(StreamOf(steps)) == TurnOut(steps, CutAfterStep)
    ensures Discarded(StreamOf(steps) + [Finish]) == TurnOut(steps, Finished)
  {
    DiscardSteps(steps);
    var s := DiscardFrom(DISCARD_START, StreamOf(steps));
    DiscardOne(s, Finish);
    DiscardSplit(DISCARD_START, StreamOf(steps), [Finish]);
    hide DiscardFrom, StepsOut, Withheld, StreamOf, IsTurn;
    assert s.out + s.kept + [Finish] + [] + [] == s.out + s.kept + [Finish];
    assert s.out + s.kept + [] == s.out + s.kept;
  }

  lemma {:induction false} DiscardCut(front: seq<seq<Part>>, last: seq<Part>)
    requires IsTurn(front) && IsBody(last)
    ensures Discarded(StreamOf(front) + ([StartStep] + last)) == StepsOut(front) + [StartStep] + NonText(last) + TextParts(last)
  {
    DiscardSteps(front);
    var s := DiscardFrom(DISCARD_START, StreamOf(front));
    DiscardSplit(DISCARD_START, StreamOf(front), [StartStep] + last);
    DiscardOpen(s, last);
    hide DiscardFrom, StepsOut, StreamOf, IsTurn, IsBody, NonText, TextParts, HasTool;
    var out := s.out + [StartStep] + NonText(last);
    assert out + [] + TextParts(last) == out + TextParts(last);
  }

  /** The whole output of `discard` on every turn, however its stream ends. */
  lemma {:induction false} DiscardedTurn(steps: seq<seq<Part>>, ending: Ending)
    requires IsTurn(steps) && steps != []
    ensures Discarded(TurnStream(steps, ending)) == TurnOut(steps, ending)
  {
    DiscardClosed(steps);
    DiscardCut(steps[..|steps| - 1], steps[|steps| - 1]);
    hide Discarded, StepsOut, StreamOf, IsTurn, NonText, TextParts, Withheld;
  }

  lemma {:induction false} TextOfParts(parts: seq<Part>)
    ensures TextOf(NonText(parts)) == "" && TextOf(TextParts(parts)) == TextOf(parts)
  {
    if parts == [] {
      TextOfNone();
    } else {
      var front, p := parts[..|parts| - 1], parts[|parts| - 1];
      TextOfParts(front);
      PartsPush(front, p);
      assert front + [p] == parts;
      TextPush(front, p);
      if IsText(p) {
        TextPush(TextParts(front), p);
      } else {
        TextPush(NonText(front), p);
      }
      hide TextOf, NonText, TextParts;
      assert TextOf(front) + "" == TextOf(front);
    }
  }

  lemma {:induction false} StepOutText(body: seq<Part>)
    ensures TextOf(StepOut(body)) == if HasTool(body) then "" else TextOf(body)
    ensures TextOf([StartStep] + NonText(body)) == ""
    ensures TextOf(Withheld(body)) == if HasTool(body) then TextOf(body) else ""
  {
    TextOfParts(body);
    TextOfNone();
    TextOfOne(StartStep);
    var text := if HasTool(body) then [] else TextParts(body);
    TextAppend([StartStep], NonText(body));
    TextAppend([StartStep] + NonText(body), text);
    TextPush([StartStep] + NonText(body) + text, FinishStep);
    hide TextOf, NonText, TextParts, HasTool;
    assert "" + TextOf(text) + "" == TextOf(text);
  }

  lemma {:induction false} StepsOutText(steps: seq<seq<Part>>)
    ensures TextOf(StepsOut(steps)) == PlainText(steps)
  {
    TextOfNone();
    if steps != [] {
      var front, last := steps[..|steps| - 1], steps[|steps| - 1];
      StepsOutText(front);
      StepOutText(last);
      TextAppend(StepsOut(front), StepOut(last));
    }
  }

  lemma {:induction false} ClosedTurnText(front: seq<seq<Part>>, last: seq<Part>)
    ensures TextOf(StepsOut(front) + StepOut(last) + Withheld(last)) == PlainText(front) + TextOf(last)
  {
    StepsOutText(front);
    StepOutText(last);
    TextAppend(StepsOut(front), StepOut(last));
    TextAppend(StepsOut(front) + StepOut(last), Withheld(last));
    hide TextOf, StepsOut, StepOut, Withheld, PlainText, HasTool;
    var (plain, text) := (PlainText(front), TextOf(last));
    assert plain + "" + text == plain + text == plain + text + "";
  }

  lemma {:induction false} CutTurnText(front: seq<seq<Part>>, last: seq<Part>)
    ensures TextOf(StepsOut(front) + [StartStep] + NonText(last) + TextParts(last)) == PlainText(front) + TextOf(last)
  {
    StepsOutText(front);
    StepOutText(last);
    TextOfParts(last);
    TextAppend(StepsOut(front), [StartStep] + NonText(last));
    TextAppend(StepsOut(front) + ([StartStep] + NonText(last)), TextParts(last));
    hide TextOf, StepsOut, NonText, TextParts, PlainText;
    assert StepsOut(front) + ([StartStep] + NonText(last)) == StepsOut(front) + [StartStep] + NonText(last);
    assert PlainText(front) + "" == PlainText(front);
  }

  /**
   What `discard` delivers on a stream, for any turn however it ends: the texts of the earlier
   steps that called no tool, then the last step's text whether or not it called one.
   */
  lemma {:induction false} DiscardDelivers(steps: seq<seq<Part>>, ending: Ending)
    requires IsTurn(steps) && steps != []
    ensures TextOf(Discarded(TurnStream(steps, ending)))
         == PlainText(steps[..|steps| - 1]) + TextOf(steps[|steps| - 1])
  {
    var front, last := steps[..|steps| - 1], steps[|steps| - 1];
    DiscardedTurn(steps, ending);
    ClosedTurnText(front, last);
    CutTurnText(front, last);
    assert StepsOut(steps) == StepsOut(front) + StepOut(last);
    TextPush(StepsOut(steps) + Withheld(last), Finish);
    hide TextOf, NonText, TextParts, StepsOut, StepOut, Withheld, Discarded, TurnStream, PlainText;
    assert PlainText(front) + TextOf(last) + "" == PlainText(front) + TextOf(last);
  }

  lemma {:induction false} PlainTextEmpty(steps: seq<seq<Part>>)
    ensures PlainText(steps) == "" <==> forall i :: 0 <= i < |steps| ==> HasTool(steps[i]) || TextOf(steps[i]) == ""
  {
    if steps != [] {
      var n := |steps| - 1;
      PlainTextEmpty(steps[..n]);
      assert forall i :: 0 <= i < n ==> steps[..n][i] == steps[i];
    }
  }

  /**
   Stream and buffer deliver the same text under `discard` exactly when every step but the
   last called a tool or wrote nothing; in a tool loop only a tool call leads to another step.
   */
  lemma {:induction false} DiscardSameOnBothPaths(steps: seq<seq<Part>>, ending: Ending)
    requires IsTurn(steps) && steps != []
    ensures TextOf(Discarded(TurnStream(steps, ending))) == ReplyTextFor(Some(Discard), TextsOf(steps))
       <==> forall i :: 0 <= i < |steps| - 1 ==> HasTool(steps[i]) || TextOf(steps[i]) == ""
  {
    var front, last := steps[..|steps| - 1], TextOf(steps[|steps| - 1]);
    DiscardDelivers(steps, ending);
    assert ReplyTextFor(Some(Discard), TextsOf(steps)) == last;
    EarlierSteps(steps);
    EmptyPrefix(PlainText(front), last);
    hide *;
  }

  lemma {:induction false} EarlierSteps(steps: seq<seq<Part>>)
    requires steps != []
    ensures PlainText(steps[..|steps| - 1]) == ""
       <==> forall i :: 0 <= i < |steps| - 1 ==> HasTool(steps[i]) || TextOf(steps[i]) == ""
  {
    var front := steps[..|steps| - 1];
    PlainTextEmpty(front);
    hide *;
    assert forall i {:trigger steps[i]} :: 0 <= i < |front| ==> front[i] == steps[i];
  }

  lemma {:induction false} EmptyPrefix(a: string, b: string)
    ensures a + b == b <==> a == ""
  {
    assert |a + b| == |a| + |b|;
  }

  // ---------------------------------------------------------------- reply and progress

  datatype Separating = Separating(earlierText: bool, textInStep: bool, out: seq<Part>)

  function SeparatePart(s: Separating, p: Part): Separating {
    if p.StartStep? then Separating(s.earlierText || s.textInStep, false, s.out + [p])
    else if p.TextDelta? && p.text != "" then
      s.(textInStep := true,
         out := (if s.earlierText && !s.textInStep then s.out + [TextDelta(p.id, STEP_SEPARATOR)] else s.out) + [p])
    else s.(out := s.out + [p])
  }

  function Separate(parts: seq<Part>): Separating {
    if parts == [] then Separating(false, false, [])
    else SeparatePart(Separate(parts[..|parts| - 1]), parts[|parts| - 1])
  }

  method SeparateStepTexts(source: seq<Part>) returns (out: seq<Part>)
    ensures out == Separate(source).out
  {
    out := [];
    var earlierText, textInStep := false, false;
    for i := 0 to |source|
      invariant Separating(earlierText, textInStep, out) == Separate(source[..i])
    {
      assert source[..i + 1][..|source[..i + 1]| - 1] == source[..i];
      var part := source[i];
      if part.StartStep? {
        earlierText, textInStep := earlierText || textInStep, false;
      } else if part.TextDelta? && part.text != "" {
        if earlierText && !textInStep {
          out := out + [TextDelta(part.id, STEP_SEPARATOR)];
        }
        textInStep := true;
      }
      out := out + [part];
    }
    assert source[..|source|] == source;
  }

  predicate HasWords(p: Part) { p.TextDelta? && p.text != "" }

  /** The last words of the stream were written before a step boundary. */
  ghost predicate SetOff(parts: seq<Part>) {
    exists j, b :: && 0 <= j < b < |parts| && HasWords(parts[j]) && parts[b].StartStep?
                   && forall k :: j < k < |parts| ==> !HasWords(parts[k])
  }

  /** The stream with a separator, under the same id, before every delta with words that is set off from the words before it. */
  ghost function Woven(parts: seq<Part>): seq<Part> {
    if parts == [] then []
    else
      var front, p := parts[..|parts| - 1], parts[|parts| - 1];
      (if HasWords(p) && SetOff(front) then Woven(front) + [TextDelta(p.id, STEP_SEPARATOR)] else Woven(front)) + [p]
  }

  ghost predicate WordsInStep(parts: seq<Part>) {
    exists j :: 0 <= j < |parts| && HasWords(parts[j]) && forall k :: j < k < |parts| ==> !parts[k].StartStep?
  }

  ghost predicate WordsBefore(parts: seq<Part>) {
    exists j, b :: 0 <= j < b < |parts| && HasWords(parts[j]) && parts[b].StartStep?
  }

  lemma {:induction false} LastWords(parts: seq<Part>) returns (j: nat)
    requires exists i :: 0 <= i < |parts| && HasWords(parts[i])
    ensures j < |parts| && HasWords(parts[j]) && forall k :: j < k < |parts| ==> !HasWords(parts[k])
  {
    var n := |parts| - 1;
    if HasWords(parts[n]) {
      j := n;
    } else {
      var i :| 0 <= i < |parts| && HasWords(parts[i]);
      assert HasWords(parts[..n][i]);
      j := LastWords(parts[..n]);
      assert forall k :: 0 <= k < n ==> parts[..n][k] == parts[k];
    }
  }

  lemma {:induction false} SetOffIs(parts: seq<Part>)
    ensures SetOff(parts) <==> WordsBefore(parts) && !WordsInStep(parts)
  {
    if WordsBefore(parts) && !WordsInStep(parts) {
      var j := LastWords(parts);
      var b :| j < b < |parts| && parts[b].StartStep?;
    }
  }

  lemma {:induction false} WordsPush(parts: seq<Part>, p: Part)
    ensures WordsInStep(parts + [p]) <==> HasWords(p) || (!p.StartStep? && WordsInStep(parts))
    ensures WordsBefore(parts + [p]) <==> WordsBefore(parts) || (p.StartStep? && WordsInStep(parts))
  {
    var n, all := |parts|, parts + [p];
    assert all[n] == p && forall k :: 0 <= k < n ==> all[k] == parts[k];
    if HasWords(p) {
      assert WordsInStep(all);
    } else if !p.StartStep? && WordsInStep(parts) {
      var j :| 0 <= j < n && HasWords(parts[j]) && forall k :: j < k < n ==> !parts[k].StartStep?;
      assert HasWords(all[j]);
    }
    if WordsBefore(parts) {
      var j, b :| 0 <= j < b < n && HasWords(parts[j]) && parts[b].StartStep?;
      assert HasWords(all[j]) && all[b].StartStep?;
    } else if p.StartStep? && WordsInStep(parts) {
      var j :| 0 <= j < n && HasWords(parts[j]);
      assert HasWords(all[j]) && all[n].StartStep?;
    }
  }

  lemma {:induction false} SeparateFlags(parts: seq<Part>)
    ensures Separate(parts).textInStep == WordsInStep(parts)
    ensures Separate(parts).earlierText == WordsBefore(parts)
  {
    if parts != [] {
      var front, p := parts[..|parts| - 1], parts[|parts| - 1];
      SeparateFlags(front);
      WordsPush(front, p);
      assert front + [p] == parts;
      hide WordsInStep, WordsBefore;
    }
  }

  /** The whole output on every stream: every part unchanged and in order, and a separator exactly where words are set off. */
  lemma {:induction false} SeparatedWhole(parts: seq<Part>)
    ensures Separate(parts).out == Woven(parts)
  {
    if parts != [] {
      var front := parts[..|parts| - 1];
      SeparatedWhole(front);
      SeparateFlags(front);
      SetOffIs(front);
      hide WordsInStep, WordsBefore, SetOff;
    }
  }

  lemma {:induction false} SeparateOnePart(s: Separating, p: Part)
    ensures NonText(SeparatePart(s, p).out) == if IsText(p) then NonText(s.out) else NonText(s.out) + [p]
  {
    if HasWords(p) && s.earlierText && !s.textInStep {
      PartsPush(s.out, TextDelta(p.id, STEP_SEPARATOR));
      PartsPush(s.out + [TextDelta(p.id, STEP_SEPARATOR)], p);
    } else {
      PartsPush(s.out, p);
    }
    hide NonText;
  }

  /** Tool calls, boundaries and everything else that is no text reach the client under `reply` and `progress`. */
  lemma {:induction false} SeparatedNonText(parts: seq<Part>)
    ensures NonText(Separate(parts).out) == NonText(parts)
  {
    if parts != [] {
      SeparatedNonText(parts[..|parts| - 1]);
      SeparateOnePart(Separate(parts[..|parts| - 1]), parts[|parts| - 1]);
      hide SeparatePart;
    }
  }

  /** The text written before each step boundary and after the last, on any stream. */
  function SplitTexts(parts: seq<Part>): (texts: seq<string>)
    ensures texts != []
  {
    if parts == [] then [""]
    else
      var before, p := SplitTexts(parts[..|parts| - 1]), parts[|parts| - 1];
      if p.StartStep? then before + [""]
      else if p.TextDelta? then before[|before| - 1 := before[|before| - 1] + p.text]
      else before
  }

  lemma {:induction false} NonEmptyPush(texts: seq<string>, t: string)
    ensures NonEmpty(texts + [t]) == NonEmpty(texts) + if t != "" then [t] else []
  {
    if texts == [] {
      assert [t][1..] == [];
    } else {
      NonEmptyPush(texts[1..], t);
      assert (texts + [t])[1..] == texts[1..] + [t];
    }
  }

  lemma {:induction false} JoinPush(texts: seq<string>, t: string)
    ensures Join(texts + [t]) == if texts == [] then t else Join(texts) + STEP_SEPARATOR + t
  {
    if texts == [] {
    } else if |texts| == 1 {
      assert (texts + [t])[1..] == [t];
    } else {
      JoinPush(texts[1..], t);
      assert (texts + [t])[1..] == texts[1..] + [t];
    }
  }

  /** Joining with the last text apart. */
  lemma {:induction false} JoinStepTextsLast(init: seq<string>, last: string)
    ensures JoinStepTexts(init + [last])
         == if last == "" then JoinStepTexts(init)
            else if NonEmpty(init) == [] then last
            else JoinStepTexts(init) + STEP_SEPARATOR + last
  {
    NonEmptyPush(init, last);
    if last == "" {
      assert NonEmpty(init) + [] == NonEmpty(init);
    } else {
      JoinPush(NonEmpty(init), last);
    }
  }

  /** The separator's flags and output agree with the texts split so far. */
  ghost predicate Agrees(s: Separating, texts: seq<string>)
    requires texts != []
  {
    && s.earlierText == (NonEmpty(texts[..|texts| - 1]) != [])
    && s.textInStep == (texts[|texts| - 1] != "")
    && TextOf(s.out) == JoinStepTexts(texts)
  }

  lemma {:induction false} AgreesStartStep(s: Separating, texts: seq<string>)
    requires texts != [] && Agrees(s, texts)
    ensures Agrees(SeparatePart(s, StartStep), texts + [""])
  {
    hide TextOf;
    var init, last := texts[..|texts| - 1], texts[|texts| - 1];
    assert texts == init + [last];
    var s', texts' := SeparatePart(s, StartStep), texts + [""];
    assert texts'[..|texts'| - 1] == texts && texts'[|texts'| - 1] == "";
    assert s'.earlierText == (NonEmpty(texts) != []) by {
      NonEmptyPush(init, last);
    }
    assert TextOf(s'.out) == JoinStepTexts(texts') by {
      JoinStepTextsLast(texts, "");
      TextPush(s.out, StartStep);
      assert TextOf(s.out) + "" == TextOf(s.out);
    }
  }

  /** The first text of a step that follows other text is set off from it. */
  lemma {:induction false} AgreesFirstDelta(s: Separating, init: seq<string>, p: Part)
    requires Agrees(s, init + [""]) && p.TextDelta? && p.text != "" && s.earlierText
    ensures Agrees(SeparatePart(s, p), init + [p.text])
  {
    hide TextOf;
    var sep := TextDelta(p.id, STEP_SEPARATOR);
    assert (init + [""])[..|init|] == init && (init + [p.text])[..|init|] == init;
    assert TextOf(s.out) == JoinStepTexts(init) by {
      JoinStepTextsLast(init, "");
    }
    assert JoinStepTexts(init + [p.text]) == JoinStepTexts(init) + STEP_SEPARATOR + p.text by {
      JoinStepTextsLast(init, p.text);
    }
    TextPush(s.out, sep);
    TextPush(s.out + [sep], p);
  }

  lemma {:induction false} AgreesNextDelta(s: Separating, init: seq<string>, last: string, p: Part)
    requires Agrees(s, init + [last]) && p.TextDelta? && p.text != "" && (!s.earlierText || last != "")
    ensures Agrees(SeparatePart(s, p), init + [last + p.text])
  {
    hide TextOf;
    assert (init + [last])[..|init|] == init && (init + [last + p.text])[..|init|] == init;
    assert s.out + [] == s.out;
    TextPush(s.out, p);
    JoinStepTextsLast(init, last);
    JoinStepTextsLast(init, last + p.text);
    var head := JoinStepTexts(init) + STEP_SEPARATOR;
    assert head + last + p.text == head + (last + p.text);
  }

  lemma {:induction false} AgreesDelta(s: Separating, texts: seq<string>, p: Part)
    requires texts != [] && Agrees(s, texts) && p.TextDelta? && p.text != ""
    ensures Agrees(SeparatePart(s, p), texts[|texts| - 1 := texts[|texts| - 1] + p.text])
  {
    hide Agrees;
    var init, last := texts[..|texts| - 1], texts[|texts| - 1];
    assert texts == init + [last] && texts[|texts| - 1 := last + p.text] == init + [last + p.text];
    if s.earlierText && last == "" {
      assert last + p.text == p.text;
      AgreesFirstDelta(s, init, p);
    } else {
      AgreesNextDelta(s, init, last, p);
    }
  }

  lemma {:induction false} AgreesOther(s: Separating, texts: seq<string>, p: Part)
    requires texts != [] && Agrees(s, texts) && !p.StartStep? && (p.TextDelta? ==> p.text == "")
    ensures Agrees(SeparatePart(s, p), texts)
  {
    hide TextOf;
    TextPush(s.out, p);
    assert TextOf(s.out) + "" == TextOf(s.out);
  }

  lemma {:induction false} SeparateJoins(parts: seq<Part>)
    ensures Agrees(Separate(parts), SplitTexts(parts))
  {
    if parts == [] {
      assert [""][1..] == [];
    } else {
      var front, p := parts[..|parts| - 1], parts[|parts| - 1];
      SeparateJoins(front);
      var s, texts := Separate(front), SplitTexts(front);
      if p.StartStep? {
        AgreesStartStep(s, texts);
      } else if p.TextDelta? && p.text != "" {
        AgreesDelta(s, texts, p);
      } else {
        AgreesOther(s, texts, p);
        assert texts[|texts| - 1] + "" == texts[|texts| - 1];
        assert SplitTexts(parts) == texts;
      }
    }
  }

  lemma {:induction false} SplitAppend(parts: seq<Part>, body: seq<Part>)
    requires IsBody(body)
    ensures var before := SplitTexts(parts);
            SplitTexts(parts + body) == before[|before| - 1 := before[|before| - 1] + TextOf(body)]
  {
    hide TextOf;
    TextOfNone();
    var before := SplitTexts(parts);
    if body == [] {
      assert parts + body == parts;
      assert before[|before| - 1] + "" == before[|before| - 1];
    } else {
      var front, p := body[..|body| - 1], body[|body| - 1];
      SplitAppend(parts, front);
      assert (parts + body)[..|parts + body| - 1] == parts + front;
      assert body == front + [p];
      TextAppend(front, [p]);
      TextOfOne(p);
      assert before[|before| - 1] + TextOf(front) + TextOf([p]) == before[|before| - 1] + (TextOf(front) + TextOf([p]));
      assert TextOf(front) + "" == TextOf(front);
    }
  }

  lemma {:induction false} SplitPush(parts: seq<Part>, p: Part)
    requires !p.TextDelta?
    ensures SplitTexts(parts + [p]) == SplitTexts(parts) + if p.StartStep? then [""] else []
  {
    assert (parts + [p])[..|parts + [p]| - 1] == parts;
  }

  lemma {:induction false} SplitOpenStep(before: seq<Part>, body: seq<Part>)
    requires IsBody(body)
    ensures SplitTexts(before + ([StartStep] + body)) == SplitTexts(before) + [TextOf(body)]
  {
    hide TextOf, IsBody;
    SplitPush(before, StartStep);
    SplitAppend(before + [StartStep], body);
    hide SplitTexts;
    assert before + ([StartStep] + body) == before + [StartStep] + body;
    assert "" + TextOf(body) == TextOf(body);
    var texts := SplitTexts(before) + [""];
    assert texts[|texts| - 1 := TextOf(body)] == SplitTexts(before) + [TextOf(body)];
  }

  lemma {:induction false} SplitStream(steps: seq<seq<Part>>)
    requires IsTurn(steps)
    ensures SplitTexts(StreamOf(steps)) == [""] + TextsOf(steps)
  {
    if steps != [] {
      var front, body := steps[..|steps| - 1], steps[|steps| - 1];
      var before := StreamOf(front);
      SplitStream(front);
      SplitOpenStep(before, body);
      SplitPush(before + ([StartStep] + body), FinishStep);
      hide TextOf, SplitTexts;
      assert before + StepParts(body) == before + ([StartStep] + body) + [FinishStep];
      assert SplitTexts(before) + [TextOf(body)] + [] == SplitTexts(before) + [TextOf(body)];
      assert [""] + TextsOf(front) + [TextOf(body)] == [""] + TextsOf(steps);
    }
  }

  predicate EndsWith(text: string, end: string) {
    |end| <= |text| && text[|text| - |end|..] == end
  }

  lemma {:induction false} JoinEndsWithLast(texts: seq<string>)
    requires texts != []
    ensures EndsWith(JoinStepTexts(texts), texts[|texts| - 1])
  {
    var init, last := texts[..|texts| - 1], texts[|texts| - 1];
    assert texts == init + [last];
    JoinStepTextsLast(init, last);
  }

  /** On any stream the separated deltas are the joined texts of its steps, and end with the last of them. */
  lemma {:induction false} SeparatedOnAnyStream(parts: seq<Part>)
    ensures TextOf(Separate(parts).out) == JoinStepTexts(SplitTexts(parts))
    ensures EndsWith(TextOf(Separate(parts).out), SplitTexts(parts)[|SplitTexts(parts)| - 1])
  {
    SeparateJoins(parts);
    JoinEndsWithLast(SplitTexts(parts));
  }

  /** `reply` delivers the same text streamed and buffered, for every turn, empty steps included. */
  lemma {:induction false} ReplySameOnBothPaths(steps: seq<seq<Part>>, ending: Ending)
    requires IsTurn(steps) && steps != []
    ensures TextOf(Separate(TurnStream(steps, ending)).out) == ReplyTextFor(Some(Reply), TextsOf(steps))
  {
    TurnSplit(steps, ending);
    SeparateJoins(TurnStream(steps, ending));
    var texts := [""] + TextsOf(steps);
    assert texts[1..] == TextsOf(steps);
    assert texts != [] && texts[0] == "";
    assert NonEmpty(texts) == [] + NonEmpty(texts[1..]) == NonEmpty(TextsOf(steps));
    assert JoinStepTexts(texts) == JoinStepTexts(TextsOf(steps));
    assert SplitTexts(TurnStream(steps, ending)) == texts;
  }

  lemma {:induction false} TurnSplit(steps: seq<seq<Part>>, ending: Ending)
    requires IsTurn(steps) && steps != []
    ensures SplitTexts(TurnStream(steps, ending)) == [""] + TextsOf(steps)
  {
    match ending
    case Finished =>
      SplitStream(steps);
      SplitPush(StreamOf(steps), Finish);
    case CutAfterStep =>
      SplitStream(steps);
    case CutInStep =>
      CutStepSplits(steps[..|steps| - 1], steps[|steps| - 1]);
      assert steps == steps[..|steps| - 1] + [steps[|steps| - 1]];
  }

  lemma {:induction false} CutStepSplits(front: seq<seq<Part>>, last: seq<Part>)
    requires IsTurn(front) && IsBody(last)
    ensures SplitTexts(StreamOf(front) + ([StartStep] + last)) == [""] + TextsOf(front + [last])
  {
    SplitStream(front);
    SplitOpenStep(StreamOf(front), last);
    hide TextOf, SplitTexts, StreamOf;
    assert [""] + TextsOf(front) + [TextOf(last)] == [""] + TextsOf(front + [last]);
  }

  /** Under `progress` the buffered reply is the end of what was streamed. */
  lemma {:induction false} ProgressEndsWithReply(steps: seq<seq<Part>>, ending: Ending)
    requires IsTurn(steps) && steps != []
    ensures EndsWith(TextOf(Separate(TurnStream(steps, ending)).out), ReplyTextFor(Some(Progress), TextsOf(steps)))
  {
    TurnSplit(steps, ending);
    SeparatedOnAnyStream(TurnStream(steps, ending));
    assert ([""] + TextsOf(steps))[|steps|] == TextsOf(steps)[|steps| - 1];
  }

  // ---------------------------------------------------------------- the policy

  function Applied(source: seq<Part>, policy: Option<Policy>): seq<Part> {
    match policy
    case Some(Discard) => Discarded(source)
    case Some(_) => Separate(source).out
    case None => source
  }

  method ApplyIntermediateTextPolicy(source: seq<Part>, policy: Option<Policy>) returns (out: seq<Part>)
    ensures out == Applied(source, policy)
  {
    if policy == Some(Discard) {
      out := DiscardToolStepText(source);
    } else if policy == Some(Reply) || policy == Some(Progress) {
      out := SeparateStepTexts(source);
    } else {
      out := source;
    }
  }

  /** What each policy makes of a turn on a stream, against the buffered reply; an unset one passes the stream through. */
  lemma {:induction false} PolicyOnBothPaths(steps: seq<seq<Part>>, ending: Ending)
    requires IsTurn(steps) && steps != []
    ensures var (stream, texts, last) := (TurnStream(steps, ending), TextsOf(steps), TextOf(steps[|steps| - 1]));
            && TextOf(Applied(stream, Some(Reply))) == ReplyTextFor(Some(Reply), texts) == JoinStepTexts(texts)
            && EndsWith(TextOf(Applied(stream, Some(Progress))), last) && ReplyTextFor(Some(Progress), texts) == last
            && EndsWith(TextOf(Applied(stream, Some(Discard))), last) && ReplyTextFor(Some(Discard), texts) == last
            && Applied(stream, None) == stream && ReplyTextFor(None, texts) == last
  {
    ReplySameOnBothPaths(steps, ending);
    ProgressEndsWithReply(steps, ending);
    DiscardDelivers(steps, ending);
    SuffixEnds(PlainText(steps[..|steps| - 1]), TextOf(steps[|steps| - 1]));
    hide TextOf, Separate, Discarded, TurnStream, PlainText, IsTurn, EndsWith, JoinStepTexts;
  }

  lemma {:induction false} SuffixEnds(a: string, b: string)
    ensures EndsWith(a + b, b)
  {
  }
}
