/** The Anthropic stream validator and the grammar it decides
    (internal/anthropicapi/stream.go). */
module StreamValidator {
  import opened Basics

  /** One server-sent event, decoded; Malformed stands for invalid JSON, a name
      that differs from the type inside, and every unknown type. */
  datatype StreamEvent =
    | MessageStart | Ping
    | BlockStart(index: Option<int>, kind: string)
    | BlockDelta(index: Option<int>, delta: string)
    | BlockStop(index: Option<int>)
    | MessageDelta | MessageStop | Error | Malformed

  predicate IsBlock(e: StreamEvent) {
    e.BlockStart? || e.BlockDelta? || e.BlockStop?
  }

  predicate Closing(e: StreamEvent) {
    e.MessageStop? || e.Error?
  }

  predicate DeltaFits(delta: string, kind: string) {
    || (delta == "text_delta" && kind == "text")
    || (delta == "input_json_delta" && kind == "tool_use")
    || ((delta == "thinking_delta" || delta == "signature_delta") && kind == "thinking")
  }

  // ---------------------------------------------------------------------------
  // The grammar

  /** The events of one block index. */
  function Projection(t: seq<StreamEvent>, x: int): seq<StreamEvent> {
    if t == [] then []
    else
      var n := |t| - 1;
      Projection(t[..n], x) + if IsBlock(t[n]) && t[n].index == Some(x) then [t[n]] else []
  }

  /** Words of (start, matching deltas, stop)*, from between two blocks or from
      inside one. */
  predicate Blocks(inside: Option<string>, s: seq<StreamEvent>)
    decreases |s|
  {
    if s == [] then inside.None?
    else if inside.None? then s[0].BlockStart? && s[0].kind != "" && Blocks(Some(s[0].kind), s[1..])
    else if s[0].BlockDelta? then DeltaFits(s[0].delta, inside.value) && Blocks(inside, s[1..])
    else s[0].BlockStop? && Blocks(None, s[1..])
  }

  ghost predicate Grammar(t: seq<StreamEvent>) {
    && t != [] && t[0].MessageStart? && (forall i :: 0 < i < |t| ==> !t[i].MessageStart?)
    && Closing(t[|t| - 1]) && (forall i :: 0 <= i < |t| - 1 ==> !Closing(t[i]))
    && (forall i :: 0 <= i < |t| ==> !t[i].Malformed? && (IsBlock(t[i]) ==> t[i].index.Some?))
    && (forall i, k :: 0 <= i < k < |t| && t[i].MessageDelta? ==> t[k].Ping? || Closing(t[k]))
    && (t[|t| - 1].MessageStop? ==> MessageDelta in t)
    && (forall x: int :: Blocks(None, Projection(t, x)))
  }

  // ---------------------------------------------------------------------------
  // The machine

  datatype State = State(started: bool, deltaSeen: bool, stopped: bool, blocks: map<int, string>)

  function Start(): State {
    State(false, false, false, map[])
  }

  function Step(s: State, e: StreamEvent): Option<State> {
    if s.stopped then None
    else
      match e
      case MessageStart => if s.started then None else Some(s.(started := true))
      case Ping => if s.started then Some(s) else None
      case BlockStart(index, kind) =>
        if !s.started || s.deltaSeen || index.None? || kind == "" || index.value in s.blocks then None
        else Some(s.(blocks := s.blocks[index.value := kind]))
      case BlockDelta(index, delta) =>
        if !s.started || s.deltaSeen || index.None? || index.value !in s.blocks
           || !DeltaFits(delta, s.blocks[index.value]) then None
        else Some(s)
      case BlockStop(index) =>
        if !s.started || s.deltaSeen || index.None? || index.value !in s.blocks then None
        else Some(s.(blocks := s.blocks - {index.value}))
      case MessageDelta => if !s.started || s.deltaSeen || s.blocks != map[] then None else Some(s.(deltaSeen := true))
      case MessageStop => if !s.deltaSeen || s.blocks != map[] then None else Some(s.(stopped := true))
      case Error => Some(s.(stopped := true))
      case Malformed => None
  }

  function Run(t: seq<StreamEvent>): Option<State> {
    if t == [] then Some(Start())
    else
      var s := Run(t[..|t| - 1]);
      if s.None? then None else Step(s.value, t[|t| - 1])
  }

  predicate Final(s: State) {
    s.started && s.stopped && s.blocks == map[]
  }

  class Validator {
    var started: bool
    var deltaSeen: bool
    var stopped: bool
    var blocks: map<int, string>

    constructor ()
      ensures Current() == Start()
    {
      started, deltaSeen, stopped, blocks := false, false, false, map[];
    }

    function Current(): State
      reads this
    {
      State(started, deltaSeen, stopped, blocks)
    }

    method Accept(e: StreamEvent) returns (ok: bool)
      modifies this
      ensures ok == Step(old(Current()), e).Some?
      ensures Current() == if ok then Step(old(Current()), e).value else old(Current())
    {
      if stopped {
        return false;
      }
      match e {
        case MessageStart =>
          if started {
            return false;
          }
          started := true;
        case Ping =>
          if !started {
            return false;
          }
        case BlockStart(index, kind) =>
          if !started || deltaSeen || index.None? || kind == "" || index.value in blocks {
            return false;
          }
          blocks := blocks[index.value := kind];
        case BlockDelta(index, delta) =>
          if !started || deltaSeen || index.None? || index.value !in blocks || !DeltaFits(delta, blocks[index.value]) {
            return false;
          }
        case BlockStop(index) =>
          if !started || deltaSeen || index.None? || index.value !in blocks {
            return false;
          }
          blocks := blocks - {index.value};
        case MessageDelta =>
          if !started || deltaSeen || blocks != map[] {
            return false;
          }
          deltaSeen := true;
        case MessageStop =>
          if !deltaSeen || blocks != map[] {
            return false;
          }
          stopped := true;
        case Error =>
          stopped := true;
        case Malformed =>
          return false;
      }
      return true;
    }

    method Finalize() returns (ok: bool)
      ensures ok == Final(Current())
    {
      ok := started && stopped && blocks == map[];
    }
  }

  /** A whole stream through one validator. */
  method ValidateStream(t: seq<StreamEvent>) returns (ok: bool)
    ensures ok <==> Grammar(t)
  {
    var v := new Validator();
    for i := 0 to |t|
      invariant Run(t[..i]) == Some(v.Current())
    {
      assert t[..i + 1][..i] == t[..i];
      var accepted := v.Accept(t[i]);
      if !accepted {
        RunPrefix(t, i + 1);
        GrammarExactly(t);
        return false;
      }
    }
    assert t[..|t|] == t;
    GrammarExactly(t);
    ok := v.Finalize();
  }

  lemma {:induction false} RunPrefix(t: seq<StreamEvent>, n: nat)
    requires n <= |t| && Run(t[..n]).None?
    ensures Run(t).None?
    decreases |t| - n
  {
    if n < |t| {
      assert t[..n + 1][..n] == t[..n];
      RunPrefix(t, n + 1);
    } else {
      assert t[..n] == t;
    }
  }

  // ---------------------------------------------------------------------------
  // One block index

  /** What one more event does to the state of one index. */
  function InsideNext(q: Option<string>, e: StreamEvent): Option<Option<string>> {
    if q.None? then if e.BlockStart? && e.kind != "" then Some(Some(e.kind)) else None
    else if e.BlockDelta? then if DeltaFits(e.delta, q.value) then Some(q) else None
    else if e.BlockStop? then Some(None) else None
  }

  /** The state between or inside blocks after a word, if it got that far. */
  function Inside(s: seq<StreamEvent>): Option<Option<string>> {
    if s == [] then Some(None)
    else
      var q := Inside(s[..|s| - 1]);
      if q.None? then None else InsideNext(q.value, s[|s| - 1])
  }

  lemma {:induction false} BlocksSplit(s: seq<StreamEvent>, n: nat)
    requires n <= |s|
    ensures Blocks(None, s) <==> Inside(s[..n]).Some? && Blocks(Inside(s[..n]).value, s[n..])
  {
    if n == 0 {
      assert s[..0] == [] && s[0..] == s;
    } else {
      BlocksSplit(s, n - 1);
      assert s[..n][..n - 1] == s[..n - 1] && s[n - 1..][1..] == s[n..] && s[n - 1..][0] == s[n - 1];
    }
  }

  lemma BlocksExactly(s: seq<StreamEvent>)
    ensures Blocks(None, s) <==> Inside(s) == Some(None)
  {
    BlocksSplit(s, |s|);
    assert s[..|s|] == s && s[|s|..] == [];
  }

  lemma ProjectionSnoc(t: seq<StreamEvent>, e: StreamEvent, x: int)
    ensures Projection(t + [e], x) == Projection(t, x) + if IsBlock(e) && e.index == Some(x) then [e] else []
  {}

  lemma {:induction false} ProjectionPrefix(t: seq<StreamEvent>, n: nat, x: int)
    requires n <= |t|
    ensures Projection(t[..n], x) <= Projection(t, x)
    ensures (forall i :: n <= i < |t| ==> !IsBlock(t[i])) ==> Projection(t[..n], x) == Projection(t, x)
    decreases |t| - n
  {
    if n < |t| {
      ProjectionPrefix(t, n + 1, x);
      assert t[..n + 1] == t[..n] + [t[n]];
      ProjectionSnoc(t[..n], t[n], x);
    } else {
      assert t[..n] == t;
    }
  }

  // ---------------------------------------------------------------------------
  // The machine decides the grammar

  ghost predicate Flags(t: seq<StreamEvent>, s: State) {
    && (s.started <==> MessageStart in t) && (s.deltaSeen <==> MessageDelta in t)
    && (s.stopped <==> t != [] && Closing(t[|t| - 1]))
  }

  ghost predicate Describes(t: seq<StreamEvent>, s: State) {
    Flags(t, s) && forall x: int :: Inside(Projection(t, x)) == Some(OpenAt(s, x))
  }

  /** The grammar's conditions as far as a prefix can be held to them. */
  ghost predicate Shape(t: seq<StreamEvent>) {
    && (t != [] ==> t[0].MessageStart? || t == [Error]) && (forall i :: 0 < i < |t| ==> !t[i].MessageStart?)
    && (forall i :: 0 <= i < |t| - 1 ==> !Closing(t[i]))
    && (forall i :: 0 <= i < |t| ==> !t[i].Malformed? && (IsBlock(t[i]) ==> t[i].index.Some?))
    && (forall i, k :: 0 <= i < k < |t| && t[i].MessageDelta? ==> t[k].Ping? || Closing(t[k]))
    && (t != [] && t[|t| - 1].MessageStop? ==> MessageDelta in t)
  }

  lemma InsideWord(w: seq<StreamEvent>, e: StreamEvent)
    ensures Inside(w + [e]) == if Inside(w).None? then None else InsideNext(Inside(w).value, e)
  {}

  lemma InsideSnoc(t: seq<StreamEvent>, e: StreamEvent, x: int)
    ensures IsBlock(e) && e.index == Some(x) ==>
              Inside(Projection(t + [e], x))
              == (if Inside(Projection(t, x)).None? then None else InsideNext(Inside(Projection(t, x)).value, e))
    ensures !(IsBlock(e) && e.index == Some(x)) ==> Inside(Projection(t + [e], x)) == Inside(Projection(t, x))
  {
    hide Inside, InsideNext, Projection;
    ProjectionSnoc(t, e, x);
    InsideWord(Projection(t, x), e);
    assert Projection(t, x) + [] == Projection(t, x);
  }

  function OpenAt(s: State, x: int): Option<string> {
    if x in s.blocks then Some(s.blocks[x]) else None
  }

  lemma OpenStep(s: State, e: StreamEvent, x: int)
    requires Step(s, e).Some?
    ensures IsBlock(e) && e.index == Some(x) ==> InsideNext(OpenAt(s, x), e) == Some(OpenAt(Step(s, e).value, x))
    ensures !(IsBlock(e) && e.index == Some(x)) ==> OpenAt(Step(s, e).value, x) == OpenAt(s, x)
  {}

  lemma FlagsStep(t: seq<StreamEvent>, s: State, e: StreamEvent)
    requires Flags(t, s) && Step(s, e).Some?
    ensures Flags(t + [e], Step(s, e).value)
  {
    var u := t + [e];
    assert u[|u| - 1] == e && (forall m :: m in u <==> m in t || m == e);
  }

  lemma DescribesStep(t: seq<StreamEvent>, s: State, e: StreamEvent)
    requires Describes(t, s) && Step(s, e).Some?
    ensures Describes(t + [e], Step(s, e).value)
  {
    var u, r := t + [e], Step(s, e).value;
    FlagsStep(t, s, e);
    hide Inside, Projection, InsideNext, Flags, Step, OpenAt;
    forall x: int ensures Inside(Projection(u, x)) == Some(OpenAt(r, x)) {
      InsideSnoc(t, e, x);
      OpenStep(s, e, x);
    }
  }

  lemma ShapeStep(t: seq<StreamEvent>, s: State, e: StreamEvent)
    requires Describes(t, s) && Shape(t) && Step(s, e).Some?
    ensures Shape(t + [e])
  {}

  lemma {:induction false} RunShape(t: seq<StreamEvent>)
    requires Run(t).Some?
    ensures Describes(t, Run(t).value) && Shape(t)
  {
    if t != [] {
      var n := |t| - 1;
      RunShape(t[..n]);
      DescribesStep(t[..n], Run(t[..n]).value, t[n]);
      ShapeStep(t[..n], Run(t[..n]).value, t[n]);
      assert t[..n] + [t[n]] == t;
    }
  }

  /** Inside a word of the grammar every block prefix is one. */
  lemma GrammarInside(t: seq<StreamEvent>, n: nat, x: int)
    requires Grammar(t) && n <= |t|
    ensures Inside(Projection(t[..n], x)).Some?
  {
    var w := Projection(t, x);
    ProjectionPrefix(t, n, x);
    var m := |Projection(t[..n], x)|;
    assert Projection(t[..n], x) == w[..m];
    BlocksSplit(w, m);
  }

  /** No block event follows the message delta or the end. */
  lemma GrammarClosed(t: seq<StreamEvent>, n: nat, x: int)
    requires Grammar(t) && n < |t| && (t[n].MessageDelta? || Closing(t[n]))
    ensures Inside(Projection(t[..n], x)) == Some(None)
  {
    ProjectionPrefix(t, n, x);
    BlocksExactly(Projection(t, x));
  }

  lemma GrammarStep(t: seq<StreamEvent>, n: nat, s: State)
    requires Grammar(t) && n < |t| && Describes(t[..n], s)
    ensures Step(s, t[n]).Some?
  {
    var p, e := t[..n], t[n];
    assert !s.stopped;
    if n > 0 {
      assert p[0] == t[0] && p[0] in p;
    }
    assert n > 0 ==> s.started;
    assert e.MessageStart? ==> p == [];
    if IsBlock(e) {
      assert !s.deltaSeen;
      BlockStep(t, n, s, e.index.value);
    } else if e.MessageDelta? || Closing(e) {
      forall x: int ensures x !in s.blocks {
        GrammarClosed(t, n, x);
        assert Inside(Projection(p, x)) == Some(OpenAt(s, x));
      }
      assert s.blocks == map[];
      if e.MessageDelta? {
        assert !s.deltaSeen;
      } else if e.MessageStop? {
        var k :| 0 <= k < |t| && t[k] == MessageDelta;
        assert p[k] == MessageDelta;
      }
    }
  }

  lemma BlockStep(t: seq<StreamEvent>, n: nat, s: State, x: int)
    requires Grammar(t) && n < |t| && IsBlock(t[n]) && t[n].index == Some(x)
    requires s.started && !s.deltaSeen && !s.stopped && Inside(Projection(t[..n], x)) == Some(OpenAt(s, x))
    ensures Step(s, t[n]).Some?
  {
    hide Inside, Projection, Grammar;
    GrammarInside(t, n + 1, x);
    InsideSnoc(t[..n], t[n], x);
    assert t[..n] + [t[n]] == t[..n + 1];
  }

  lemma {:induction false} GrammarRuns(t: seq<StreamEvent>, n: nat)
    requires Grammar(t) && n <= |t|
    ensures Run(t[..n]).Some? && Describes(t[..n], Run(t[..n]).value)
  {
    if n > 0 {
      GrammarRuns(t, n - 1);
      GrammarStep(t, n - 1, Run(t[..n - 1]).value);
      assert t[..n][..n - 1] == t[..n - 1];
      RunShape(t[..n]);
    } else {
      assert t[..0] == [];
      RunShape([]);
    }
  }

  /** Accepting and finalizing is membership in the grammar. */
  lemma GrammarExactly(t: seq<StreamEvent>)
    ensures Grammar(t) <==> Run(t).Some? && Final(Run(t).value)
  {
    if Grammar(t) {
      GrammarRuns(t, |t|);
      assert t[..|t|] == t;
      forall x: int ensures x !in Run(t).value.blocks {
        BlocksExactly(Projection(t, x));
        assert Inside(Projection(t, x)) == Some(OpenAt(Run(t).value, x));
      }
      assert t[0] in t;
    }
    if Run(t).Some? && Final(Run(t).value) {
      RunShape(t);
      forall x: int ensures Blocks(None, Projection(t, x)) {
        BlocksExactly(Projection(t, x));
      }
    }
  }

  // ---------------------------------------------------------------------------
  // A message as upstreams send it

  function Times(e: StreamEvent, n: nat): seq<StreamEvent> {
    seq(n, _ => e)
  }

  lemma RunSnoc(t: seq<StreamEvent>, e: StreamEvent)
    requires Run(t).Some?
    ensures Run(t + [e]) == Step(Run(t).value, e)
  {
    assert (t + [e])[..|t|] == t;
  }

  lemma {:induction false} RunRepeat(t: seq<StreamEvent>, e: StreamEvent, n: nat)
    requires Run(t).Some? && Step(Run(t).value, e) == Run(t)
    ensures Run(t + Times(e, n)) == Run(t)
  {
    if n == 0 {
      assert t + Times(e, 0) == t;
    } else {
      RunRepeat(t, e, n - 1);
      RunSnoc(t + Times(e, n - 1), e);
      assert t + Times(e, n) == t + Times(e, n - 1) + [e];
    }
  }

  /** A block of this kind with any number of its deltas goes through. */
  lemma BlockPasses(t: seq<StreamEvent>, x: int, kind: string, delta: string, n: nat)
    requires Run(t).Some? && kind != "" && DeltaFits(delta, kind)
    requires var s := Run(t).value; s.started && !s.deltaSeen && !s.stopped && s.blocks == map[]
    ensures Run(t + [BlockStart(Some(x), kind)] + Times(BlockDelta(Some(x), delta), n) + [BlockStop(Some(x))]) == Run(t)
  {
    var begun, d := t + [BlockStart(Some(x), kind)], BlockDelta(Some(x), delta);
    RunSnoc(t, BlockStart(Some(x), kind));
    RunRepeat(begun, d, n);
    RunSnoc(begun + Times(d, n), BlockStop(Some(x)));
    assert map[x := kind] - {x} == map[];
  }

  /** A block of index `x` with `n` deltas. */
  function Block(x: int, kind: string, delta: string, n: nat): seq<StreamEvent> {
    [BlockStart(Some(x), kind)] + Times(BlockDelta(Some(x), delta), n) + [BlockStop(Some(x))]
  }

  /** Between blocks of a message that goes on. */
  predicate Between(t: seq<StreamEvent>) {
    Run(t) == Some(State(true, false, false, map[]))
  }

  lemma BlockAdds(t: seq<StreamEvent>, x: int, kind: string, delta: string, n: nat)
    requires Between(t) && kind != "" && DeltaFits(delta, kind)
    ensures Between(t + Block(x, kind, delta, n))
  {
    BlockPasses(t, x, kind, delta, n);
    assert t + Block(x, kind, delta, n)
        == t + [BlockStart(Some(x), kind)] + Times(BlockDelta(Some(x), delta), n) + [BlockStop(Some(x))];
  }

  lemma MessageEnds(t: seq<StreamEvent>)
    requires Between(t)
    ensures Grammar(t + [MessageDelta] + [MessageStop])
  {
    hide Grammar;
    RunSnoc(t, MessageDelta);
    RunSnoc(t + [MessageDelta], MessageStop);
    GrammarExactly(t + [MessageDelta] + [MessageStop]);
  }

  lemma MessageBegins()
    ensures Between([MessageStart])
  {
    RunSnoc([], MessageStart);
    assert [] + [MessageStart] == [MessageStart];
  }

  /** Thinking with its signature, text and a tool call, each with any number of
      deltas, form a valid message. */
  lemma OrdinaryMessage(thoughts: nat, signatures: nat, texts: nat, inputs: nat)
    ensures Grammar([MessageStart] + Block(0, "thinking", "thinking_delta", thoughts)
                    + Block(1, "thinking", "signature_delta", signatures) + Block(2, "text", "text_delta", texts)
                    + Block(3, "tool_use", "input_json_delta", inputs) + [MessageDelta] + [MessageStop])
  {
    hide Grammar, Between, Block;
    var t1 := [MessageStart] + Block(0, "thinking", "thinking_delta", thoughts);
    var t2 := t1 + Block(1, "thinking", "signature_delta", signatures);
    var t3 := t2 + Block(2, "text", "text_delta", texts);
    MessageBegins();
    BlockAdds([MessageStart], 0, "thinking", "thinking_delta", thoughts);
    BlockAdds(t1, 1, "thinking", "signature_delta", signatures);
    BlockAdds(t2, 2, "text", "text_delta", texts);
    BlockAdds(t3, 3, "tool_use", "input_json_delta", inputs);
    MessageEnds(t3 + Block(3, "tool_use", "input_json_delta", inputs));
  }
}
